/**
  agent_system/utils.py: the priority normaliser and the key/value
  post-processing of extract_structured_data. The regular-expression
  search itself is outside the model: its list of (key, value) matches is
  the input.
*/
module Utils {
  import opened Strings
  import opened Wrappers
  import opened Models

  /** `parse_priority`: upper-case and strip, map the synonyms, fall back to MEDIUM. */
  function ParsePriority(priority: string): (r: string)
    ensures r == "HIGH" || r == "MEDIUM" || r == "LOW" || r == "CRITICAL"
  {
    var p := Strip(Upper(priority));
    if p == "HIGH" || p == "H" then "HIGH"
    else if p == "MEDIUM" || p == "MED" || p == "M" then "MEDIUM"
    else if p == "LOW" || p == "L" then "LOW"
    else if p == "CRITICAL" || p == "CRIT" || p == "C" then "CRITICAL"
    else "MEDIUM"
  }

  /** The normalised key: stripped, lower-cased, every ' ' replaced by '_'. */
  function NormalKey(key: string): (k: string)
    ensures ' ' !in k
  {
    var k := SpacesToUnderscores(Lower(Strip(key)));
    assert forall i :: 0 <= i < |k| ==> k[i] != ' ';
    k
  }

  /** The dictionary `extract_structured_data` builds from its matches, in match order. */
  function StructuredData(matches: seq<(string, string)>): map<string, string> {
    if matches == [] then map[]
    else
      var last := matches[|matches| - 1];
      StructuredData(matches[..|matches| - 1])[NormalKey(last.0) := Strip(last.1)]
  }

  /** The loop of `extract_structured_data` over the regular expression's matches. */
  method ExtractStructuredData(matches: seq<(string, string)>) returns (data: map<string, string>)
    ensures data == StructuredData(matches)
  {
    data := map[];
    var i := 0;
    while i < |matches|
      invariant 0 <= i <= |matches|
      invariant data == StructuredData(matches[..i])
    {
      var (key, value) := matches[i];
      assert matches[..i + 1][..i] == matches[..i];
      data := data[NormalKey(key) := Strip(value)];
      i := i + 1;
    }
    assert matches[..i] == matches;
  }

  // ---------------------------------------------------------------------------
  // Properties of parse_priority

  /** Case and surrounding whitespace do not matter. */
  lemma ParsePriorityIgnoresCaseAndSpace(s: string)
    ensures ParsePriority(Upper(s)) == ParsePriority(s)
    ensures ParsePriority(Strip(s)) == ParsePriority(s)
  {
    UpperIdempotent(s);
    UpperStripCommute(s);
    StripIdempotent(Upper(s));
  }

  /** The synonym table, and the fall-back for anything else. */
  lemma ParsePriorityTable(s: string)
    ensures Strip(Upper(s)) in {"HIGH", "H"} ==> ParsePriority(s) == "HIGH"
    ensures Strip(Upper(s)) in {"MEDIUM", "MED", "M"} ==> ParsePriority(s) == "MEDIUM"
    ensures Strip(Upper(s)) in {"LOW", "L"} ==> ParsePriority(s) == "LOW"
    ensures Strip(Upper(s)) in {"CRITICAL", "CRIT", "C"} ==> ParsePriority(s) == "CRITICAL"
    ensures Strip(Upper(s)) !in {"HIGH", "H", "LOW", "L", "CRITICAL", "CRIT", "C"} ==> ParsePriority(s) == "MEDIUM"
  {
  }

  lemma StripUpperCanonical(name: string)
    requires name in {"HIGH", "MEDIUM", "LOW", "CRITICAL"}
    ensures Strip(Upper(name)) == name
  {
    assert Upper(name) == name;
    assert name[0] != ' ' && !IsSpace(name[0]) && !IsSpace(name[|name| - 1]);
    TrimStartNoop(name);
    TrimEndNoop(name);
  }

  /** Applying it to one of its own outputs returns that output. */
  lemma ParsePriorityIdempotent(s: string)
    ensures ParsePriority(ParsePriority(s)) == ParsePriority(s)
  {
    StripUpperCanonical(ParsePriority(s));
  }

  /** Every output names a TicketPriority member, so it is accepted by `getattr(TicketPriority, ...)`. */
  lemma ParsePriorityNamesMember(s: string)
    ensures PriorityFromName(ParsePriority(s)).Some?
  {
  }

  /** parse_priority and the enum lookup in create_ticket disagree: "urgent" becomes MEDIUM here but is
      refused there, and so is " high ", which create_ticket does not strip. */
  lemma ParsePriorityVersusEnumLookup()
    ensures ParsePriority("urgent") == "MEDIUM" && PriorityFromName(Upper("urgent")) == None
    ensures ParsePriority(" high ") == "HIGH" && PriorityFromName(Upper(" high ")) == None
  {
    assert Upper("urgent") == "URGENT";
    assert TrimStart("URGENT") == "URGENT";
    assert TrimEnd("URGENT") == "URGENT";
    assert Upper(" high ") == " HIGH ";
    assert TrimStart(" HIGH ") == "HIGH ";
    assert TrimEnd("HIGH ") == "HIGH";
  }

  // ---------------------------------------------------------------------------
  // Properties of extract_structured_data

  /** No stored key contains a space, and every stored key comes from some match. */
  lemma {:induction false} StructuredDataKeys(matches: seq<(string, string)>)
    ensures forall k :: k in StructuredData(matches) ==> ' ' !in k
    ensures forall k :: k in StructuredData(matches) ==>
      exists i :: 0 <= i < |matches| && NormalKey(matches[i].0) == k
  {
    if matches != [] {
      var init := matches[..|matches| - 1];
      StructuredDataKeys(init);
      forall k | k in StructuredData(matches)
        ensures exists i :: 0 <= i < |matches| && NormalKey(matches[i].0) == k
      {
        if k == NormalKey(matches[|matches| - 1].0) {
        } else {
          assert k in StructuredData(init);
          var i :| 0 <= i < |init| && NormalKey(init[i].0) == k;
          assert matches[i] == init[i];
        }
      }
    }
  }

  /** Later matches win: the value under a key is the stripped value of the last match with that key. */
  lemma {:induction false} StructuredDataLastWins(matches: seq<(string, string)>, i: nat)
    requires i < |matches|
    requires forall j :: i < j < |matches| ==> NormalKey(matches[j].0) != NormalKey(matches[i].0)
    ensures NormalKey(matches[i].0) in StructuredData(matches)
    ensures StructuredData(matches)[NormalKey(matches[i].0)] == Strip(matches[i].1)
  {
    if i < |matches| - 1 {
      var init := matches[..|matches| - 1];
      assert init[i] == matches[i];
      forall j | i < j < |init| ensures NormalKey(init[j].0) != NormalKey(init[i].0) {
        assert init[j] == matches[j];
      }
      StructuredDataLastWins(init, i);
    }
  }
}
