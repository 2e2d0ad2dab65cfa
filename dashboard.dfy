/**
 * The admin dashboard (`Dashboard.tsx`): how many cases each lawyer holds, the bars of
 * the workload chart built from those counts, and the five newest inquiries. The
 * counters themselves are `StoreContext.StatsOf`.
 */
module Dashboard {
  import opened Wrappers
  import opened Seqs
  import opened Text
  import opened Types
  import opened StoreContext

  function CaseLawyer(c: LegalCase): int {
    c.lawyerId
  }

  /**
   * `cases.reduce(...)` on `lawyerId`: every lawyer id that some case carries, with the
   * number of cases carrying it; the counts add up to the number of cases.
   */
  function CasesPerLawyer(cases: seq<LegalCase>): (m: map<int, nat>)
    ensures forall id :: id in m <==> exists i :: 0 <= i < |cases| && cases[i].lawyerId == id
    ensures forall id :: id in m ==> m[id] == |Filter(cases, KeyIs(CaseLawyer, id))|
    ensures forall id :: id in m ==> m[id] >= 1
    ensures Total(m) == |cases|
  {
    var ids := Map(cases, CaseLawyer);
    TallyTotal(ids);
    LawyerCounts(cases);
    LawyerKeys(cases);
    Tally(ids)
  }

  lemma LawyerCounts(cases: seq<LegalCase>)
    ensures var m := Tally(Map(cases, CaseLawyer));
      forall id :: id in m ==> m[id] == |Filter(cases, KeyIs(CaseLawyer, id))|
  {
    forall id | id in Tally(Map(cases, CaseLawyer))
      ensures Tally(Map(cases, CaseLawyer))[id] == |Filter(cases, KeyIs(CaseLawyer, id))|
    {
      KeyCount(cases, CaseLawyer, id);
    }
  }

  lemma LawyerKeys(cases: seq<LegalCase>)
    ensures forall id :: id in Map(cases, CaseLawyer) <==> exists i :: 0 <= i < |cases| && cases[i].lawyerId == id
  {
    var ids := Map(cases, CaseLawyer);
    forall id ensures id in ids <==> exists i :: 0 <= i < |cases| && cases[i].lawyerId == id {
      if id in ids {
        var k :| 0 <= k < |ids| && ids[k] == id;
        assert cases[k].lawyerId == id;
      }
    }
  }

  // ---------------------------------------------------------------- key order

  predicate Increasing(s: seq<int>) {
    forall i, j :: 0 <= i < j < |s| ==> s[i] < s[j]
  }

  /** `x` put into its place in an increasing list, unless it is there already. */
  function Insert(x: int, s: seq<int>): (r: seq<int>)
    requires Increasing(s)
    ensures Increasing(r)
    ensures forall y :: y in r <==> y == x || y in s
    decreases |s|
  {
    if s == [] then [x]
    else if x < s[0] then [x] + s
    else if x == s[0] then s
    else
      assert Increasing(s[1..]);
      var rest := Insert(x, s[1..]);
      assert forall y :: y in s <==> y == s[0] || y in s[1..];
      assert forall k :: 0 <= k < |rest| ==> rest[k] in rest && s[0] < rest[k];
      [s[0]] + rest
  }

  /** The distinct values of `ks`, smallest first. */
  function Ascending(ks: seq<int>): (r: seq<int>)
    ensures Increasing(r)
    ensures forall y :: y in r <==> y in ks
    decreases |ks|
  {
    if ks == [] then []
    else
      assert forall y :: y in ks <==> y == ks[0] || y in ks[1..];
      Insert(ks[0], Ascending(ks[1..]))
  }

  /**
   * `Object.keys(casesPerLawyer)`: the keys of an object whose keys are array indices
   * come in increasing order. Each lawyer id that holds a case occurs exactly once.
   */
  function LawyerIds(cases: seq<LegalCase>): (r: seq<int>)
    ensures Increasing(r)
    ensures forall id :: id in r <==> id in CasesPerLawyer(cases)
  {
    LawyerKeys(cases);
    Ascending(Map(cases, CaseLawyer))
  }

  // ---------------------------------------------------------------- chart bars

  datatype LawyerBar = LawyerBar(name: string, value: nat)

  /** `availableLawyers.find(l => l.id === id)?.name || \`ID: ${id}\``. */
  function LawyerLabel(lawyers: seq<InternalUser>, id: int): (r: string)
    ensures match Find(lawyers, HasUserId(id))
            case Some(u) => r == if u.name != "" then u.name else "ID: " + IntToString(id)
            case None => r == "ID: " + IntToString(id)
  {
    match Find(lawyers, HasUserId(id))
    case Some(u) => if u.name != "" then u.name else "ID: " + IntToString(id)
    case None => "ID: " + IntToString(id)
  }

  /** The label has a registered, named lawyer behind it. */
  predicate Named(lawyers: seq<InternalUser>, id: int) {
    var u := Find(lawyers, HasUserId(id));
    u.Some? && u.value.name != ""
  }

  /** The chart label as written: the text before the first space of `LawyerLabel`. */
  function BarLabelAsWritten(lawyers: seq<InternalUser>, id: int): (r: string)
    ensures r <= LawyerLabel(lawyers, id) && !Contains(r, " ")
    ensures Contains(LawyerLabel(lawyers, id), " ") ==> OccursAt(LawyerLabel(lawyers, id), |r|, " ")
    ensures !Contains(LawyerLabel(lawyers, id), " ") ==> r == LawyerLabel(lawyers, id)
  {
    SplitFirst(LawyerLabel(lawyers, id), " ")
  }

  /**
   * As written, the fallback `ID: <id>` loses its id: every lawyer id without a named
   * lawyer is labelled `ID:`, so the bars of two such ids cannot be told apart.
   */
  lemma UnnamedBarsLookAlike(lawyers: seq<InternalUser>, a: int, b: int)
    requires !Named(lawyers, a) && !Named(lawyers, b)
    ensures BarLabelAsWritten(lawyers, a) == "ID:"
    ensures BarLabelAsWritten(lawyers, a) == BarLabelAsWritten(lawyers, b)
  {
    FallbackLabelCut(a);
    FallbackLabelCut(b);
  }

  lemma FallbackLabelCut(id: int)
    ensures SplitFirst("ID: " + IntToString(id), " ") == "ID:"
  {
    var s := "ID: " + IntToString(id);
    assert OccursAt(s, 3, " ");
    var r := SplitFirst(s, " ");
    assert Contains(s, " ");
    assert forall k :: 0 <= k < 3 ==> s[k] != ' ';
    assert s[|r|..|r| + 1][0] == s[|r|] == ' ';
    assert r == s[..3];
  }

  /**
   * The chart label meant: a named lawyer's first name (the text before the first
   * space), otherwise the whole fallback `ID: <id>`.
   */
  function BarLabel(lawyers: seq<InternalUser>, id: int): (r: string)
    ensures Named(lawyers, id) ==> r == BarLabelAsWritten(lawyers, id)
    ensures !Named(lawyers, id) ==> r == "ID: " + IntToString(id)
  {
    if Named(lawyers, id) then SplitFirst(LawyerLabel(lawyers, id), " ") else LawyerLabel(lawyers, id)
  }

  /** With the corrected label, the bars of two different unnamed ids are labelled differently. */
  lemma UnnamedBarsDiffer(lawyers: seq<InternalUser>, a: int, b: int)
    requires !Named(lawyers, a) && !Named(lawyers, b) && a != b
    ensures BarLabel(lawyers, a) != BarLabel(lawyers, b)
  {
    if BarLabel(lawyers, a) == BarLabel(lawyers, b) {
      assert BarLabel(lawyers, a)[4..] == IntToString(a);
      assert BarLabel(lawyers, b)[4..] == IntToString(b);
      IntToStringInjective(a, b);
    }
  }

  /**
   * `lawyerData`: one bar per lawyer id holding a case, in key order, labelled as the
   * source labels it and with that lawyer's case count.
   */
  function LawyerData(cases: seq<LegalCase>, lawyers: seq<InternalUser>): (r: seq<LawyerBar>)
    ensures |r| == |LawyerIds(cases)|
    ensures forall i :: 0 <= i < |r| ==>
      r[i] == LawyerBar(BarLabelAsWritten(lawyers, LawyerIds(cases)[i]), CasesPerLawyer(cases)[LawyerIds(cases)[i]])
    ensures forall i :: 0 <= i < |r| ==> r[i].value >= 1
  {
    var ids := LawyerIds(cases);
    var counts := CasesPerLawyer(cases);
    Map(ids, (id: int) => LawyerBar(BarLabelAsWritten(lawyers, id), if id in counts then counts[id] else 0))
  }

  // ---------------------------------------------------------------- inquiries

  /** `inquiries.slice(0, 5)`: the first five inquiries (the newest, as new ones go first), in order. */
  function RecentInquiries(inquiries: seq<Inquiry>): (r: seq<Inquiry>)
    ensures |r| == if |inquiries| < 5 then |inquiries| else 5
    ensures r <= inquiries
  {
    Take(inquiries, 5)
  }
}
