/**
 * The option ranker of the searchable select box (`SearchableSelect.tsx`): the label of the
 * selected value, and `filteredOptions`, which keeps the options whose lower-cased label
 * contains the lower-cased query and orders them exact match, then prefix match, then any
 * other match, keeping the original order within each tier.
 */
module OptionRanker {
  import opened Wrappers
  import opened Strings
  import opened Seqs

  datatype SelectOption = SelectOption(value: string, text: string)

  /** An option that matched, with its tier: 0 exact, 1 prefix, 2 elsewhere. */
  datatype Ranked = Ranked(option: SelectOption, priority: int)

  function OptionValue(o: SelectOption): string { o.value }
  function PriorityOf(r: Ranked): int { r.priority }

  /** The tier of a lower-cased label `lowered` that contains the lower-cased query `q`. */
  function Priority(lowered: string, q: string): int
  {
    if lowered == q then 0 else if StartsWith(lowered, q) then 1 else 2
  }

  predicate Matches(q: string, o: SelectOption)
  {
    Contains(ToLower(o.text), q)
  }

  /** The `map` to `{option, priority}` or `null`, followed by the `filter` of the nulls. */
  function Candidates(q: string, options: seq<SelectOption>): (r: seq<Ranked>)
    ensures |r| <= |options|
    ensures forall i :: 0 <= i < |r| ==> 0 <= r[i].priority <= 2
  {
    if options == [] then []
    else
      var o := options[0];
      (if Matches(q, o) then [Ranked(o, Priority(ToLower(o.text), q))] else []) + Candidates(q, options[1..])
  }

  function OptionsOf(rs: seq<Ranked>): (r: seq<SelectOption>)
    ensures |r| == |rs|
    ensures forall i :: 0 <= i < |rs| ==> r[i] == rs[i].option
  {
    if rs == [] then [] else [rs[0].option] + OptionsOf(rs[1..])
  }

  /** `filteredOptions`: the options themselves for an empty query, otherwise the ranked matches. */
  function FilteredOptions(searchQuery: string, options: seq<SelectOption>): seq<SelectOption>
  {
    if searchQuery == "" then options
    else OptionsOf(SortBy(PriorityOf, Candidates(ToLower(searchQuery), options)))
  }

  /** `options.find(o => o.value === value)?.text || ''`. */
  function SelectedLabel(options: seq<SelectOption>, value: string): (r: string)
    ensures (forall i :: 0 <= i < |options| ==> options[i].value != value) ==> r == ""
    ensures (exists i :: 0 <= i < |options| && options[i].value == value) ==>
      exists i :: 0 <= i < |options| && options[i].value == value && r == options[i].text &&
        forall j :: 0 <= j < i ==> options[j].value != value
  {
    match FindById(OptionValue, options, value)
    case None => ""
    case Some(o) => o.text
  }

  // ---------------------------------------------------------------------------------------
  // Reference definition: tier `k` is the matching options of tier `k`, in their original order.

  function Tier(q: string, options: seq<SelectOption>, k: int): seq<SelectOption>
  {
    if options == [] then []
    else
      var o := options[0];
      (if Matches(q, o) && Priority(ToLower(o.text), q) == k then [o] else []) + Tier(q, options[1..], k)
  }

  /** Tier `k` holds exactly the options that match with tier `k`. */
  lemma {:induction false} TierMembers(q: string, options: seq<SelectOption>, k: int, o: SelectOption)
    ensures o in Tier(q, options, k) <==> o in options && Matches(q, o) && Priority(ToLower(o.text), q) == k
  {
    if options != [] {
      TierMembers(q, options[1..], k, o);
      assert options == [options[0]] + options[1..];
    }
  }

  lemma {:induction false} OptionsOfAppend(a: seq<Ranked>, b: seq<Ranked>)
    ensures OptionsOf(a + b) == OptionsOf(a) + OptionsOf(b)
  {
    if a != [] {
      assert (a + b)[1..] == a[1..] + b;
      OptionsOfAppend(a[1..], b);
    }
  }

  /** Tier `k` of the candidates is exactly the reference tier `k`. */
  lemma {:induction false} CandidatesTier(q: string, options: seq<SelectOption>, k: int)
    ensures OptionsOf(KeepByKey(PriorityOf, Candidates(q, options), k)) == Tier(q, options, k)
  {
    if options != [] {
      var o := options[0];
      var head := if Matches(q, o) then [Ranked(o, Priority(ToLower(o.text), q))] else [];
      CandidatesTier(q, options[1..], k);
      KeepByKeyAppend(PriorityOf, head, Candidates(q, options[1..]), k);
      OptionsOfAppend(KeepByKey(PriorityOf, head, k), KeepByKey(PriorityOf, Candidates(q, options[1..]), k));
    }
  }

  /**
   * With a non-empty query the result is the exact matches, then the prefix matches, then the
   * other matches, each group in the original order of `options`.
   */
  lemma FilteredOptionsAreTiers(searchQuery: string, options: seq<SelectOption>)
    requires searchQuery != ""
    ensures var q := ToLower(searchQuery);
      FilteredOptions(searchQuery, options) == Tier(q, options, 0) + Tier(q, options, 1) + Tier(q, options, 2)
  {
    var q := ToLower(searchQuery);
    var c := Candidates(q, options);
    var s := SortBy(PriorityOf, c);
    SortBySortsAndPermutes(PriorityOf, c);
    forall i | 0 <= i < |s| ensures 0 <= s[i].priority <= 2 {
      assert s[i] in multiset(c);
      var j :| 0 <= j < |c| && c[j] == s[i];
    }
    SortedThreeTiers(PriorityOf, s);
    SortByStable(PriorityOf, c, 0);
    SortByStable(PriorityOf, c, 1);
    SortByStable(PriorityOf, c, 2);
    CandidatesTier(q, options, 0);
    CandidatesTier(q, options, 1);
    CandidatesTier(q, options, 2);
    var k0, k1, k2 := KeepByKey(PriorityOf, s, 0), KeepByKey(PriorityOf, s, 1), KeepByKey(PriorityOf, s, 2);
    OptionsOfAppend(k0 + k1, k2);
    OptionsOfAppend(k0, k1);
  }

  /** An empty query shows every option, in the given order. */
  lemma EmptyQueryIsIdentity(options: seq<SelectOption>)
    ensures FilteredOptions("", options) == options
    ensures |FilteredOptions("", options)| == |options|
  {
  }

  lemma TierBound(q: string, options: seq<SelectOption>, o: SelectOption)
    ensures o in Tier(q, options, 0) + Tier(q, options, 1) + Tier(q, options, 2) <==> o in options && Matches(q, o)
  {
    TierMembers(q, options, 0, o);
    TierMembers(q, options, 1, o);
    TierMembers(q, options, 2, o);
    var p := Priority(ToLower(o.text), q);
    assert p == 0 || p == 1 || p == 2;
  }

  /** With a non-empty query, an option is shown exactly when its label contains the query, ignoring case. */
  lemma FilteredOptionsMembership(searchQuery: string, options: seq<SelectOption>, o: SelectOption)
    requires searchQuery != ""
    ensures o in FilteredOptions(searchQuery, options) <==> o in options && Contains(ToLower(o.text), ToLower(searchQuery))
  {
    FilteredOptionsAreTiers(searchQuery, options);
    TierBound(ToLower(searchQuery), options, o);
  }

  // ---------------------------------------------------------------------------------------
  // Worked examples.

  /** Tiers are computed option by option: the tier of two lists side by side is their tiers side by side. */
  lemma {:induction false} TierAppend(q: string, x: seq<SelectOption>, y: seq<SelectOption>, k: int)
    ensures Tier(q, x + y, k) == Tier(q, x, k) + Tier(q, y, k)
  {
    if x != [] {
      assert (x + y)[0] == x[0] && (x + y)[1..] == x[1..] + y;
      TierAppend(q, x[1..], y, k);
    } else {
      assert x + y == y;
    }
  }

  lemma TierSingle(q: string, o: SelectOption, k: int)
    ensures Tier(q, [o], k) == if Matches(q, o) && Priority(ToLower(o.text), q) == k then [o] else []
  {
    assert [o][1..] == [];
  }

  lemma PrefixMatchExample()
    ensures Matches("abc", SelectOption("1", "abcd")) && Priority(ToLower("abcd"), "abc") == 1
  {
    assert ToLower("abcd") == "abcd";
    assert OccursAt("abcd", "abc", 0);
  }

  lemma ExactMatchExample()
    ensures Matches("abc", SelectOption("2", "abc")) && Priority(ToLower("abc"), "abc") == 0
  {
    assert ToLower("abc") == "abc";
    assert OccursAt("abc", "abc", 0);
  }

  lemma InnerMatchExample()
    ensures Matches("abc", SelectOption("3", "xabcx")) && Priority(ToLower("xabcx"), "abc") == 2
  {
    assert ToLower("xabcx") == "xabcx";
    assert OccursAt("xabcx", "abc", 1);
    assert !StartsWith("xabcx", "abc");
  }

  /** A tier of three options is the tiers of each option in turn. */
  lemma TierOfThree(q: string, a: SelectOption, b: SelectOption, c: SelectOption, k: int)
    ensures Tier(q, [a, b, c], k) == Tier(q, [a], k) + Tier(q, [b], k) + Tier(q, [c], k)
  {
    assert [a, b, c] == [a] + ([b] + [c]);
    TierAppend(q, [b], [c], k);
    TierAppend(q, [a], [b] + [c], k);
  }

  lemma ExampleSingles(a: SelectOption, b: SelectOption, c: SelectOption, k: int)
    requires a == SelectOption("1", "abcd") && b == SelectOption("2", "abc") && c == SelectOption("3", "xabcx")
    ensures Tier("abc", [a], k) == (if k == 1 then [a] else [])
    ensures Tier("abc", [b], k) == (if k == 0 then [b] else [])
    ensures Tier("abc", [c], k) == (if k == 2 then [c] else [])
  {
    PrefixMatchExample();
    ExactMatchExample();
    InnerMatchExample();
    TierSingle("abc", a, k);
    TierSingle("abc", b, k);
    TierSingle("abc", c, k);
  }

  /** "abc" among "abcd", "abc", "xabcx": the exact match first, then the prefix match, then the rest. */
  lemma ExactMatchFirstExample(a: SelectOption, b: SelectOption, c: SelectOption)
    requires a == SelectOption("1", "abcd") && b == SelectOption("2", "abc") && c == SelectOption("3", "xabcx")
    ensures FilteredOptions("abc", [a, b, c]) == [b, a, c]
  {
    ExampleTiers(a, b, c);
    LowerAbc();
    FilteredByTiers("abc", "abc", [a, b, c], [b], [a], [c]);
    assert [b] + [a] + [c] == [b, a, c];
  }

  lemma LowerAbc()
    ensures ToLower("abc") == "abc"
  {
  }

  /** Each tier of the three-option example holds exactly its own option. */
  lemma ExampleTiers(a: SelectOption, b: SelectOption, c: SelectOption)
    requires a == SelectOption("1", "abcd") && b == SelectOption("2", "abc") && c == SelectOption("3", "xabcx")
    ensures Tier("abc", [a, b, c], 0) == [b] && Tier("abc", [a, b, c], 1) == [a] && Tier("abc", [a, b, c], 2) == [c]
  {
    var none: seq<SelectOption> := [];
    assert Tier("abc", [a, b, c], 0) == [b] by {
      ExampleSingles(a, b, c, 0);
      TierOfThree("abc", a, b, c, 0);
      assert none + [b] + none == [b];
    }
    assert Tier("abc", [a, b, c], 1) == [a] by {
      ExampleSingles(a, b, c, 1);
      TierOfThree("abc", a, b, c, 1);
      assert [a] + none + none == [a];
    }
    assert Tier("abc", [a, b, c], 2) == [c] by {
      ExampleSingles(a, b, c, 2);
      TierOfThree("abc", a, b, c, 2);
      assert none + none + [c] == [c];
    }
  }

  lemma FilteredByTiers(searchQuery: string, q: string, options: seq<SelectOption>, t0: seq<SelectOption>, t1: seq<SelectOption>, t2: seq<SelectOption>)
    requires searchQuery != "" && ToLower(searchQuery) == q
    requires Tier(q, options, 0) == t0 && Tier(q, options, 1) == t1 && Tier(q, options, 2) == t2
    ensures FilteredOptions(searchQuery, options) == t0 + t1 + t2
  {
    FilteredOptionsAreTiers(searchQuery, options);
  }

  /** Upper-case query "ABC" finds the label "abc" as an exact match. */
  lemma CaseInsensitiveExample()
    ensures FilteredOptions("ABC", [SelectOption("1", "abc")]) == [SelectOption("1", "abc")]
  {
    assert ToLower("ABC") == "abc";
    assert ToLower("abc") == "abc";
    assert OccursAt("abc", "abc", 0);
  }

  /** A query that occurs in no label leaves nothing to choose. */
  lemma ExclusionExample()
    ensures FilteredOptions("zzz", [SelectOption("1", "abc")]) == []
  {
    assert ToLower("zzz") == "zzz";
    assert ToLower("abc") == "abc";
  }
}
