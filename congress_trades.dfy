/** The congress trading page: a fixed list of members, three overview
    figures folded over it, member cards with initials, a party badge and a
    signed return, and a selected member whose profile replaces the list. */
module CongressTrades {
  import opened Prelude

  datatype Member = Member(id: int, name: string, party: string, state: string, position: string,
                           totalTrades: nat, totalValue: real, averageReturn: real)

  const Members: seq<Member> := [
    Member(1, "Nancy Pelosi", "Democratic", "California", "Former Speaker of the House", 156, 25400000.0, 14.2),
    Member(2, "Dan Crenshaw", "Republican", "Texas", "Representative", 89, 12300000.0, 11.8),
    Member(3, "Josh Gottheimer", "Democratic", "New Jersey", "Representative", 124, 18700000.0, 9.6),
    Member(4, "Austin Scott", "Republican", "Georgia", "Representative", 67, 8900000.0, 7.3)
  ]

  /** `members.reduce((sum, member) => sum + f(member), 0)`, folded from the
      left. */
  function SumOf(ms: seq<Member>, f: Member -> real): real
  {
    if ms == [] then 0.0 else SumOf(ms[..|ms| - 1], f) + f(ms[|ms| - 1])
  }

  /** The fold over two lists joined is the sum of the two folds. */
  lemma {:induction false} SumOfAppend(a: seq<Member>, b: seq<Member>, f: Member -> real)
    ensures SumOf(a + b, f) == SumOf(a, f) + SumOf(b, f)
    decreases |b|
  {
    if b != [] {
      var last := b[|b| - 1];
      assert (a + b)[..|a + b| - 1] == a + b[..|b| - 1];
      SumOfAppend(a, b[..|b| - 1], f);
    } else {
      assert a + b == a;
    }
  }

  /** Bounds on every term bound the fold by the count times the bound. */
  lemma {:induction false} SumOfBetween(ms: seq<Member>, f: Member -> real, lo: real, hi: real)
    requires forall i :: 0 <= i < |ms| ==> lo <= f(ms[i]) <= hi
    ensures lo * |ms| as real <= SumOf(ms, f) <= hi * |ms| as real
  {
    if ms != [] {
      SumOfBetween(ms[..|ms| - 1], f, lo, hi);
    }
  }

  function Trades(m: Member): real { m.totalTrades as real }

  function Value(m: Member): real { m.totalValue }

  function Return(m: Member): real { m.averageReturn }

  /** `totalTrades` and `totalTradesValue`. */
  function TotalTrades(ms: seq<Member>): (r: real)
    ensures r >= 0.0
    ensures forall i :: 0 <= i < |ms| ==> ms[i].totalTrades as real <= r
  {
    SumOfNonNegative(ms, Trades);
    SumOf(ms, Trades)
  }

  function TotalValue(ms: seq<Member>): (r: real)
    ensures (forall i :: 0 <= i < |ms| ==> ms[i].totalValue >= 0.0)
            ==> r >= 0.0 && forall i :: 0 <= i < |ms| ==> ms[i].totalValue <= r
  {
    SumOfNonNegative(ms, Value);
    SumOf(ms, Value)
  }

  /** With non-negative terms the fold is non-negative and at least each term. */
  lemma {:induction false} SumOfNonNegative(ms: seq<Member>, f: Member -> real)
    ensures (forall i :: 0 <= i < |ms| ==> f(ms[i]) >= 0.0)
            ==> SumOf(ms, f) >= 0.0 && forall i :: 0 <= i < |ms| ==> f(ms[i]) <= SumOf(ms, f)
  {
    if ms != [] {
      var init := ms[..|ms| - 1];
      SumOfNonNegative(init, f);
      assert forall i :: 0 <= i < |init| ==> ms[i] == init[i];
    }
  }

  /** `averageReturn`: the sum of returns over the member count; an empty
      list divides 0 by 0, which is not a number and shown as none here. */
  function AverageReturn(ms: seq<Member>): (r: Option<real>)
    ensures r.Some? <==> ms != []
    ensures r.Some? ==> r.value * |ms| as real == SumOf(ms, Return)
  {
    if ms == [] then None else Some(SumOf(ms, Return) / |ms| as real)
  }

  /** The mean return lies between the smallest and the largest member
      return. */
  lemma AverageWithinReturns(ms: seq<Member>, lo: real, hi: real)
    requires ms != []
    requires forall i :: 0 <= i < |ms| ==> lo <= ms[i].averageReturn <= hi
    ensures lo <= AverageReturn(ms).value <= hi
  {
    SumOfBetween(ms, Return, lo, hi);
    var n := |ms| as real;
    var avg := AverageReturn(ms).value;
    assert avg * n == SumOf(ms, Return);
  }

  /** The overview cards for the list as shipped: 436 trades, $65.3M, and a
      mean return of 10.725%. */
  lemma OverviewFigures()
    ensures TotalTrades(Members) == 436.0
    ensures TotalValue(Members) == 65300000.0
    ensures AverageReturn(Members) == Some(10.725)
  {
    var m := Members;
    assert m[..4] == m;
    FoldSteps(m, Trades);
    FoldSteps(m, Value);
    FoldSteps(m, Return);
    assert SumOf(m[..1], Trades) == 156.0;
    assert SumOf(m[..2], Trades) == 156.0 + 89.0;
    assert SumOf(m[..3], Trades) == 245.0 + 124.0;
    assert SumOf(m[..4], Trades) == 369.0 + 67.0;
    assert SumOf(m[..1], Value) == 25400000.0;
    assert SumOf(m[..2], Value) == 25400000.0 + 12300000.0;
    assert SumOf(m[..3], Value) == 37700000.0 + 18700000.0;
    assert SumOf(m[..4], Value) == 56400000.0 + 8900000.0;
    assert SumOf(m[..1], Return) == 14.2;
    assert SumOf(m[..2], Return) == 14.2 + 11.8;
    assert SumOf(m[..3], Return) == 26.0 + 9.6;
    assert SumOf(m[..4], Return) == 35.6 + 7.3;
  }

  /** The four steps of a fold over a four-member list, one member each. */
  lemma FoldSteps(m: seq<Member>, f: Member -> real)
    requires |m| == 4
    ensures SumOf(m[..1], f) == f(m[0])
    ensures SumOf(m[..2], f) == SumOf(m[..1], f) + f(m[1])
    ensures SumOf(m[..3], f) == SumOf(m[..2], f) + f(m[2])
    ensures SumOf(m[..4], f) == SumOf(m[..3], f) + f(m[3])
  {
    assert m[..1][..0] == [];
    assert m[..2][..1] == m[..1];
    assert m[..3][..2] == m[..2];
    assert m[..4][..3] == m[..3];
  }

  /** The party badge. */
  function PartyBadge(party: string): (r: string)
    ensures r == "D" <==> party == "Democratic"
    ensures r == "R" <==> party != "Democratic"
  {
    if party == "Democratic" then "D" else "R"
  }

  /** The sign shown before a member's return: "+" only above zero. */
  function ReturnSign(averageReturn: real): (r: string)
    ensures r == "+" <==> averageReturn > 0.0
    ensures r != "+" ==> r == ""
  {
    if averageReturn > 0.0 then "+" else ""
  }

  /** `name.split(' ').map(n => n[0]).join('')`; an empty part contributes
      nothing, since `undefined` joins as the empty string. */
  function Initials(name: string): (r: string)
    ensures |r| <= |Split(name, ' ')|
  {
    InitialsOf(Split(name, ' '))
  }

  function InitialsOf(parts: seq<string>): (r: string)
    ensures |r| <= |parts|
    ensures |r| == |parts| <==> forall i :: 0 <= i < |parts| ==> parts[i] != ""
    ensures (forall i :: 0 <= i < |parts| ==> parts[i] != "") ==>
      forall i :: 0 <= i < |parts| ==> r[i] == parts[i][0]
  {
    if parts == [] then ""
    else
      var rest := InitialsOf(parts[1..]);
      assert forall i :: 1 <= i < |parts| ==> parts[i] == parts[1..][i - 1];
      if parts[0] == "" then rest else [parts[0][0]] + rest
  }

  /** The avatar fallback for a two-word name is its two initials. */
  lemma PelosiInitials()
    ensures Initials("Nancy Pelosi") == "NP"
  {
    assert "Nancy Pelosi" == "Nancy" + [' '] + "Pelosi";
    SplitTwo("Nancy", "Pelosi", ' ');
  }

  /** What the page renders. */
  datatype View = List | Profile(member: Member)

  class Page {
    var selectedMember: Option<Member>

    constructor()
      ensures selectedMember == None
    {
      selectedMember := None;
    }

    /** A selected member replaces the list with that member's profile. */
    function CurrentView(): (v: View)
      reads this
      ensures v.Profile? <==> selectedMember.Some?
      ensures v.Profile? ==> v.member == selectedMember.value
    {
      if selectedMember.Some? then Profile(selectedMember.value) else List
    }

    /** Clicking a member's card. */
    method SelectMember(m: Member)
      modifies this
      ensures selectedMember == Some(m)
      ensures CurrentView() == Profile(m)
    {
      selectedMember := Some(m);
    }

    /** The profile's back button. */
    method BackToList()
      modifies this
      ensures selectedMember == None
      ensures CurrentView() == List
    {
      selectedMember := None;
    }
  }
}
