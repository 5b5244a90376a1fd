/**
 * The health resources page (components/Resources.tsx): a topic lookup with
 * a loading flag, an error and the fetched content, and the newline to
 * `<br />` rewriting of that content for display. The content service call is
 * an outcome supplied to the second half of the handler.
 */
module Resources {
  import opened Types

  const LineBreak := "<br />"
  const FetchErrorMessage := "Sorry, I couldn't fetch information on that topic. Please try again."

  /** Number of newline characters in `s`. */
  function Newlines(s: string): nat
  {
    if s == [] then 0 else (if s[0] == '\n' then 1 else 0) + Newlines(s[1..])
  }

  /**
   * `s.replace(/\n/g, '<br />')`: every newline replaced by a line-break tag,
   * every other character kept in place.
   */
  function ReplaceNewlines(s: string): (r: string)
    ensures '\n' !in r
    ensures '\n' !in s ==> r == s
    ensures |r| == |s| + 5 * Newlines(s)
  {
    if s == [] then ""
    else (if s[0] == '\n' then LineBreak else [s[0]]) + ReplaceNewlines(s[1..])
  }

  /** The replacement works piecewise: it distributes over concatenation. */
  lemma {:induction false} ReplaceNewlinesAppend(a: string, b: string)
    ensures ReplaceNewlines(a + b) == ReplaceNewlines(a) + ReplaceNewlines(b)
    decreases |a|, 1
  {
    if a == [] {
      assert a + b == b;
    } else {
      ReplaceNewlinesAppendStep(a, b);
    }
  }

  /** ReplaceNewlinesAppend for a non-empty left part: peel off its first character. */
  lemma {:induction false} ReplaceNewlinesAppendStep(a: string, b: string)
    requires a != []
    ensures ReplaceNewlines(a + b) == ReplaceNewlines(a) + ReplaceNewlines(b)
    decreases |a|, 0
  {
    var head := if a[0] == '\n' then LineBreak else [a[0]];
    ReplaceNewlinesAppend(a[1..], b);
    Uncons(a, b);
    ReplaceNewlinesCons(a[0], a[1..] + b);
    ReplaceNewlinesCons(a[0], a[1..]);
    Regroup(head, ReplaceNewlines(a[1..]), ReplaceNewlines(b));
  }

  lemma Uncons(a: string, b: string)
    requires a != []
    ensures [a[0]] + (a[1..] + b) == a + b && [a[0]] + a[1..] == a
  {
  }

  lemma Regroup(x: string, y: string, z: string)
    ensures x + (y + z) == (x + y) + z
  {
  }

  /** The first character's replacement comes first. */
  lemma ReplaceNewlinesCons(c: char, rest: string)
    ensures ReplaceNewlines([c] + rest) == (if c == '\n' then LineBreak else [c]) + ReplaceNewlines(rest)
  {
    assert ([c] + rest)[1..] == rest;
  }

  class ResourcesPage {
    var topic: string
    var content: string
    var isLoading: bool
    var error: Option<string>

    constructor ()
      ensures topic == "" && content == "" && !isLoading && error == None
    {
      topic, content, isLoading, error := "", "", false, None;
    }

    /** The search box's onChange. */
    method SetTopic(text: string)
      modifies this
      ensures topic == text
      ensures content == old(content) && isLoading == old(isLoading) && error == old(error)
    {
      topic := text;
    }

    /**
     * fetchContent up to its await: the empty topic does nothing; any other
     * topic, whitespace-only included, sets loading, clears error and content,
     * and is the request sent to the content service.
     */
    method BeginFetch(currentTopic: string) returns (request: Option<string>)
      modifies this
      ensures currentTopic == "" ==> request == None && unchanged(this)
      ensures currentTopic != "" ==> request == Some(currentTopic)
      ensures currentTopic != "" ==> isLoading && error == None && content == ""
      ensures topic == old(topic)
    {
      if currentTopic == "" {
        return None;
      }
      isLoading := true;
      error := None;
      content := "";
      request := Some(currentTopic);
    }

    /** fetchContent after its await: the content on success, the fixed message on failure; loading ends. */
    method FinishFetch(outcome: Outcome<string>)
      modifies this
      ensures !isLoading && topic == old(topic)
      ensures outcome.Success? ==> content == outcome.value && error == old(error)
      ensures outcome.Failure? ==> error == Some(FetchErrorMessage) && content == old(content)
    {
      match outcome {
        case Success(text) => content := text;
        case Failure => error := Some(FetchErrorMessage);
      }
      isLoading := false;
    }

    /** handleTopicClick: the topic becomes the clicked one, and that same topic is fetched. */
    method HandleTopicClick(selected: string) returns (request: Option<string>)
      modifies this
      ensures topic == selected
      ensures request == (if selected == "" then None else Some(selected))
      ensures selected != "" ==> isLoading && error == None && content == ""
      ensures selected == "" ==> isLoading == old(isLoading) && error == old(error) && content == old(content)
    {
      topic := selected;
      request := BeginFetch(selected);
    }

    /**
     * handleSearch: fetch the topic currently in the search box. An empty
     * topic leaves the page as it was; any other starts the fetch.
     */
    method HandleSearch() returns (request: Option<string>)
      modifies this
      ensures request == (if old(topic) == "" then None else Some(old(topic)))
      ensures old(topic) == "" ==> unchanged(this)
      ensures old(topic) != "" ==> isLoading && error == None && content == ""
      ensures topic == old(topic)
    {
      request := BeginFetch(topic);
    }

    /** The search button is disabled while loading or when the topic is empty. */
    predicate SearchDisabled()
      reads this
    {
      isLoading || topic == ""
    }

    /** The HTML shown for the content, when there is content to show. */
    function DisplayedHtml(): (html: Option<string>)
      reads this
      ensures html.Some? <==> content != ""
      ensures html.Some? ==> '\n' !in html.value && html.value == ReplaceNewlines(content)
    {
      if content != "" then Some(ReplaceNewlines(content)) else None
    }
  }
}
