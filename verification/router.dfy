/** The agent router: picks the conversion mode from a free-text task description. */
module Router {
  import opened Strings

  /** The phrases that send a task to the advanced agent, in the order they are tried. */
  const AdvancedKeywords: seq<string> := [
    "handwritten", "unclear", "multiple tables",
    "many pages", "scanned", "complex",
    "merged cells", "symbols"
  ]

  datatype Route = Route(mode: string, endpoint: string, message: string)

  const AdvancedRoute := Route("advanced", "/convert-advanced/", "Advanced Document Agent selected")
  const StandardRoute := Route("standard", "/convert-multiple/", "Standard Document Agent selected")

  /** Some keyword of kws occurs in the (already lower-cased) task. */
  ghost predicate MentionsAny(task: string, kws: seq<string>)
  {
    exists k :: 0 <= k < |kws| && Occurs(kws[k], task)
  }

  /** The loop over the keywords, stopping at the first one that occurs. */
  function AnyKeyword(task: string, kws: seq<string>): (b: bool)
    ensures b <==> MentionsAny(task, kws)
    decreases |kws|
  {
    if |kws| == 0 then false
    else
      ContainsIsOccurs(task, kws[0]);
      if Contains(task, kws[0]) then true
      else
        var rest := AnyKeyword(task, kws[1..]);
        assert MentionsAny(task, kws[1..]) ==> MentionsAny(task, kws) by {
          if MentionsAny(task, kws[1..]) {
            var k :| 0 <= k < |kws[1..]| && Occurs(kws[1..][k], task);
            assert kws[k + 1] == kws[1..][k];
          }
        }
        assert MentionsAny(task, kws) ==> MentionsAny(task, kws[1..]) by {
          if MentionsAny(task, kws) {
            var k :| 0 <= k < |kws| && Occurs(kws[k], task);
            assert k != 0;
            assert kws[1..][k - 1] == kws[k];
          }
        }
        rest
  }

  /** The advanced agent is chosen exactly when the lower-cased task mentions one of
      the eight keywords; otherwise the standard agent is. */
  function RouteTask(task: string): (r: Route)
    ensures r == AdvancedRoute <==> MentionsAny(Lower(task), AdvancedKeywords)
    ensures r == StandardRoute <==> !MentionsAny(Lower(task), AdvancedKeywords)
  {
    if AnyKeyword(Lower(task), AdvancedKeywords) then AdvancedRoute else StandardRoute
  }

  /** Routing ignores letter case. */
  lemma RouteIgnoresCase(task: string)
    ensures RouteTask(Lower(task)) == RouteTask(task)
  {
    assert Lower(Lower(task)) == Lower(task);
  }

  /** A task mentioning handwriting goes to the advanced agent. */
  lemma HandwrittenNotesAreAdvanced()
    ensures RouteTask("This file has handwritten notes") == AdvancedRoute
  {
    var t := Lower("This file has handwritten notes");
    assert t[14..][..11] == "handwritten";
    assert Occurs(AdvancedKeywords[0], t);
  }

  /** A task that mentions none of the keywords goes to the standard agent. */
  lemma SimpleInvoiceIsStandard()
    ensures RouteTask("simple invoice") == StandardRoute
  {
    assert Lower("simple invoice") == "simple invoice";
    NoKeywordInSimpleInvoice();
  }

  lemma NoKeywordInSimpleInvoice()
    ensures !MentionsAny("simple invoice", AdvancedKeywords)
  {
    var t := "simple invoice";
    var kws := AdvancedKeywords;
    forall k | 0 <= k < |kws| ensures !Occurs(kws[k], t) {
      // each keyword has a letter that the task lacks
      var c := ['h', 'u', 't', 'y', 'a', 'x', 'g', 'y'][k];
      MissingCharRulesOut(kws[k], t, c);
    }
  }

  /** A keyword containing a character the task lacks cannot occur in it. */
  lemma MissingCharRulesOut(w: string, s: string, c: char)
    requires c in w && c !in s
    ensures !Occurs(w, s)
  {
  }
}
