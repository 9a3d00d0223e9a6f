/** The tax-optimisation dialog: a fixed catalogue of strategies, a selection
    of their ids toggled one at a time, and Apply, which hands the selected
    catalogue entries back in catalogue order and closes the dialog. */
module TaxLoopholes {
  import opened Prelude

  datatype Category = Pensions | Isa | Business | Property | Education | Other

  /** A catalogue entry; description, requirements, risks and icon are display only. */
  datatype Loophole = Loophole(id: string, title: string, savings: real,
                               applicableExpenses: seq<string>, category: Category)

  const Catalogue: seq<Loophole> := [
    Loophole("pension-contributions", "Maximum Pension Contributions", 200.0,
             ["Taxes & National Insurance"], Pensions),
    Loophole("isa-allowance", "ISA Allowance Optimization", 150.0,
             ["Taxes & National Insurance"], Isa),
    Loophole("salary-sacrifice", "Salary Sacrifice Schemes", 120.0,
             ["Transport", "Car Costs", "Taxes & National Insurance"], Business),
    Loophole("business-expenses", "Freelance/Business Expenses", 180.0,
             ["Housing", "Transport", "Subscriptions", "Maintenance"], Business),
    Loophole("rent-a-room", "Rent-a-Room Scheme", 300.0, ["Housing"], Property),
    Loophole("student-loan-optimization", "Student Loan Repayment Strategy", 100.0,
             ["Taxes & National Insurance"], Education),
    Loophole("marriage-allowance", "Marriage Allowance Transfer", 21.0,
             ["Taxes & National Insurance"], Other),
    Loophole("capital-gains-allowance", "Capital Gains Tax Allowance", 80.0,
             ["Taxes & National Insurance"], Other)
  ]

  function Ids(ls: seq<Loophole>): (r: seq<string>)
    ensures |r| == |ls|
    ensures forall i :: 0 <= i < |ls| ==> r[i] == ls[i].id
  {
    seq(|ls|, i requires 0 <= i < |ls| => ls[i].id)
  }

  function Savings(ls: seq<Loophole>): (r: seq<real>)
    ensures |r| == |ls|
    ensures forall i :: 0 <= i < |ls| ==> r[i] == ls[i].savings
  {
    seq(|ls|, i requires 0 <= i < |ls| => ls[i].savings)
  }

  /** The catalogue's ids are pairwise different and every saving is positive. */
  lemma CatalogueWellFormed()
    ensures NoDuplicates(Ids(Catalogue))
    ensures forall i :: 0 <= i < |Catalogue| ==> Catalogue[i].savings > 0.0
  {
    var ids := Ids(Catalogue);
    assert ids == ["pension-contributions", "isa-allowance", "salary-sacrifice", "business-expenses",
                   "rent-a-room", "student-loan-optimization", "marriage-allowance", "capital-gains-allowance"];
    forall i, j | 0 <= i < j < |ids| ensures ids[i] != ids[j] {
      assert ids[i][..3] != ids[j][..3] || |ids[i]| != |ids[j]|;
    }
  }

  /** `handleLoopholeToggle`: drop every occurrence of a selected id, append
      an unselected one. */
  function Toggle(selected: seq<string>, id: string): (r: seq<string>)
    ensures id in selected <==> id !in r
    ensures forall x :: x != id ==> (x in r <==> x in selected)
    ensures id !in selected ==> r == selected + [id]
    ensures IsSubsequence(r, selected) || r == selected + [id]
  {
    if id in selected then
      FilterIsSubsequence(selected, (x: string) => x != id);
      Filter(selected, (x: string) => x != id)
    else selected + [id]
  }

  /** Toggling keeps a duplicate-free selection duplicate-free. */
  lemma ToggleKeepsDistinct(selected: seq<string>, id: string)
    requires NoDuplicates(selected)
    ensures NoDuplicates(Toggle(selected, id))
  {
    if id in selected {
      FilterKeepsDistinct(selected, (x: string) => x != id);
    }
  }

  lemma {:induction false} FilterKeepsDistinct<T>(s: seq<T>, p: T -> bool)
    requires NoDuplicates(s)
    ensures NoDuplicates(Filter(s, p))
  {
    if s != [] {
      assert NoDuplicates(s[1..]) by {
        forall i, j | 0 <= i < j < |s[1..]| ensures s[1..][i] != s[1..][j] {
          assert s[1..][i] == s[i + 1] && s[1..][j] == s[j + 1];
        }
      }
      FilterKeepsDistinct(s[1..], p);
      assert s[0] !in s[1..] by {
        forall k | 0 <= k < |s[1..]| ensures s[1..][k] != s[0] {
          assert s[1..][k] == s[k + 1];
        }
      }
    }
  }

  /** Toggling the same id twice gives back the same set of ids. */
  lemma ToggleTwiceSameSet(selected: seq<string>, id: string)
    ensures forall x :: x in Toggle(Toggle(selected, id), id) <==> x in selected
  {
  }

  /** ... but not always the same order: a selected id moves to the end. */
  lemma ToggleTwiceMayReorder()
    ensures Toggle(Toggle(["isa-allowance", "rent-a-room"], "isa-allowance"), "isa-allowance")
            == ["rent-a-room", "isa-allowance"]
  {
    var s: seq<string> := ["isa-allowance", "rent-a-room"];
    var once := Toggle(s, "isa-allowance");
    assert "isa-allowance" != "rent-a-room";
    assert once == ["rent-a-room"] by {
      assert Filter(s[1..], (x: string) => x != "isa-allowance") == ["rent-a-room"];
    }
  }

  function IsSelectedBy(selected: seq<string>): Loophole -> bool
  {
    (l: Loophole) => l.id in selected
  }

  /** `loopholes.filter(l => selectedLoopholes.includes(l.id))`. */
  function SelectedEntries(selected: seq<string>): (r: seq<Loophole>)
    ensures IsSubsequence(r, Catalogue)
    ensures forall i :: 0 <= i < |r| ==> r[i].id in selected && r[i] in Catalogue
    ensures forall i :: 0 <= i < |Catalogue| && Catalogue[i].id in selected ==> Catalogue[i] in r
  {
    FilterIsSubsequence(Catalogue, IsSelectedBy(selected));
    Filter(Catalogue, IsSelectedBy(selected))
  }

  /** `totalSavings`: the savings of the selected catalogue entries, never
      negative, and positive exactly when a catalogue strategy is selected. */
  function TotalSavings(selected: seq<string>): (r: real)
    ensures r >= 0.0
    ensures r > 0.0 <==> exists i :: 0 <= i < |Catalogue| && Catalogue[i].id in selected
  {
    SelectedSavingsSign(selected);
    Sum(Savings(SelectedEntries(selected)))
  }

  lemma SelectedSavingsSign(selected: seq<string>)
    ensures Sum(Savings(SelectedEntries(selected))) >= 0.0
    ensures Sum(Savings(SelectedEntries(selected))) > 0.0
            <==> exists i :: 0 <= i < |Catalogue| && Catalogue[i].id in selected
  {
    CatalogueWellFormed();
    var e := SelectedEntries(selected);
    forall k | 0 <= k < |e| ensures Savings(e)[k] > 0.0 {
      var j :| 0 <= j < |Catalogue| && Catalogue[j] == e[k];
    }
    PositiveSum(Savings(e));
    if e != [] {
      var j :| 0 <= j < |Catalogue| && Catalogue[j] == e[0];
      assert Catalogue[j].id in selected;
    }
  }

  /** A sum of positive terms is positive exactly when there is a term. */
  lemma {:induction false} PositiveSum(s: seq<real>)
    requires forall k :: 0 <= k < |s| ==> s[k] > 0.0
    ensures Sum(s) >= 0.0
    ensures Sum(s) > 0.0 <==> s != []
  {
    if s != [] {
      PositiveSum(s[..|s| - 1]);
    }
  }

  /** Filtering with two predicates that agree gives the same result. */
  lemma {:induction false} FilterCongruent<T>(s: seq<T>, p: T -> bool, q: T -> bool)
    requires forall i :: 0 <= i < |s| ==> p(s[i]) == q(s[i])
    ensures Filter(s, p) == Filter(s, q)
  {
    if s != [] {
      FilterCongruent(s[1..], p, q);
    }
  }

  /** Only the set of selected ids matters: duplicates and order in the
      selection change neither the entries applied nor the total. */
  lemma SelectionIsASet(selected: seq<string>, other: seq<string>)
    requires forall x :: x in selected <==> x in other
    ensures SelectedEntries(selected) == SelectedEntries(other)
    ensures TotalSavings(selected) == TotalSavings(other)
  {
    FilterCongruent(Catalogue, IsSelectedBy(selected), IsSelectedBy(other));
  }

  /** Every sum of catalogue savings lies between none and all of them. */
  lemma TotalSavingsBounds(selected: seq<string>)
    ensures 0.0 <= TotalSavings(selected) <= 1151.0
  {
    CatalogueWellFormed();
    SubsequenceSavings(SelectedEntries(selected), Catalogue);
    CatalogueTotal();
  }

  lemma CatalogueTotal()
    ensures Sum(Savings(Catalogue)) == 1151.0
  {
    var sv := Savings(Catalogue);
    assert sv == [200.0, 150.0, 120.0, 180.0, 300.0, 100.0, 21.0, 80.0];
    assert Sum(sv[..1]) == 200.0;
    assert Sum(sv[..2]) == 350.0 by { assert sv[..2][..1] == sv[..1]; }
    assert Sum(sv[..3]) == 470.0 by { assert sv[..3][..2] == sv[..2]; }
    assert Sum(sv[..4]) == 650.0 by { assert sv[..4][..3] == sv[..3]; }
    assert Sum(sv[..5]) == 950.0 by { assert sv[..5][..4] == sv[..4]; }
    assert Sum(sv[..6]) == 1050.0 by { assert sv[..6][..5] == sv[..5]; }
    assert Sum(sv[..7]) == 1071.0 by { assert sv[..7][..6] == sv[..6]; }
    assert sv[..8] == sv;
  }

  /** With non-negative savings, a subsequence saves between nothing and
      what the whole sequence saves. */
  lemma {:induction false} SubsequenceSavings(a: seq<Loophole>, b: seq<Loophole>)
    requires IsSubsequence(a, b)
    requires forall i :: 0 <= i < |b| ==> b[i].savings >= 0.0
    ensures 0.0 <= Sum(Savings(a)) <= Sum(Savings(b))
    decreases |b|
  {
    if a == [] {
      NonNegativeSavings(b);
    } else if a[0] == b[0] {
      SubsequenceSavings(a[1..], b[1..]);
      SumFirst(Savings(a));
      SumFirst(Savings(b));
      assert Savings(a)[1..] == Savings(a[1..]);
      assert Savings(b)[1..] == Savings(b[1..]);
    } else {
      SubsequenceSavings(a, b[1..]);
      SumFirst(Savings(b));
      assert Savings(b)[1..] == Savings(b[1..]);
    }
  }

  lemma {:induction false} NonNegativeSavings(b: seq<Loophole>)
    requires forall i :: 0 <= i < |b| ==> b[i].savings >= 0.0
    ensures Sum(Savings(b)) >= 0.0
    decreases |b|
  {
    if b != [] {
      NonNegativeSavings(b[..|b| - 1]);
      assert Savings(b)[..|b| - 1] == Savings(b[..|b| - 1]);
    }
  }

  /** The left fold also splits off its first term. */
  lemma SumFirst(s: seq<real>)
    requires s != []
    ensures Sum(s) == s[0] + Sum(s[1..])
  {
    assert s == [s[0]] + s[1..];
    SumAppend([s[0]], s[1..]);
    assert [s[0]][..0] == [];
  }

  /** The dialog's state. */
  class Dialog {
    var selected: seq<string>
    var isOpen: bool

    /** The selection starts as the ids of the strategies already applied. */
    constructor(applied: seq<Loophole>)
      ensures selected == Ids(applied) && !isOpen
    {
      selected := Ids(applied);
      isOpen := false;
    }

    /** The trigger opens the dialog and closing it shuts it; the selection stays. */
    method SetOpen(open: bool)
      modifies this
      ensures isOpen == open && selected == old(selected)
    {
      isOpen := open;
    }

    method HandleToggle(id: string)
      modifies this
      ensures selected == Toggle(old(selected), id)
      ensures isOpen == old(isOpen)
    {
      selected := Toggle(selected, id);
    }

    /** `handleApply`: the selected entries, in catalogue order; the dialog closes. */
    method HandleApply() returns (chosen: seq<Loophole>)
      modifies this
      ensures chosen == SelectedEntries(selected)
      ensures selected == old(selected) && !isOpen
      ensures Sum(Savings(chosen)) == TotalSavings(selected)
    {
      chosen := SelectedEntries(selected);
      isOpen := false;
    }

    /** The Apply button is disabled when nothing is selected; Apply would
        then hand back no strategy and save nothing. */
    function ApplyDisabled(): (r: bool)
      reads this
      ensures r ==> SelectedEntries(selected) == [] && TotalSavings(selected) == 0.0
    {
      |selected| == 0
    }
  }
}
