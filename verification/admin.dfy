/** The admin dashboard's derived data: the member list as narrowed by the
    type filter, the status filter and the search box, and the financial
    summary (current balance, total income, total expenses) folded over the
    loaded financial records. Amounts are integers in fils. */
module Admin {
  import opened Common
  import opened Seqs
  import opened Text
  import opened Documents
  import opened Register

  // ---------------------------------------------------------------------------
  // Members
  // ---------------------------------------------------------------------------

  /** The fields of a loaded member document the dashboard reads; a field
      the document lacks, or holds as a non-string, is `None`. */
  datatype Member = Member(
    firstName: Option<string>, lastName: Option<string>, email: Option<string>,
    memberType: Option<string>, status: Option<string>)

  /** The two drop-downs: a member type and a status, each possibly `'All'`. */
  datatype MemberFilter = MemberFilter(memberType: string, status: string)

  const NoFilter := MemberFilter("All", "All")

  /** The values the type drop-down offers besides `'All'`. */
  const OfferedTypes: set<string> := {"Maggot", "Member"}

  function TextField(doc: Doc, key: string): Option<string>
  {
    if key in doc && doc[key].Text? then Some(doc[key].s) else None
  }

  /** `v` is what reading `key` off `doc` gives: the string the document
      holds there, and nothing when the field is missing or not a string. */
  predicate ReadsText(doc: Doc, key: string, v: Option<string>)
  {
    (v.Some? <==> key in doc && doc[key].Text?) &&
    (v.Some? ==> doc[key] == Text(v.value))
  }

  /** The dashboard's view of a stored member document. */
  function MemberView(doc: Doc): (m: Member)
    ensures ReadsText(doc, "firstName", m.firstName) && ReadsText(doc, "lastName", m.lastName)
    ensures ReadsText(doc, "email", m.email)
    ensures ReadsText(doc, "memberType", m.memberType) && ReadsText(doc, "status", m.status)
  {
    Member(TextField(doc, "firstName"), TextField(doc, "lastName"), TextField(doc, "email"),
           TextField(doc, "memberType"), TextField(doc, "status"))
  }

  /** A field interpolated into a template literal: a missing one prints as
      `undefined`. */
  function Shown(field: Option<string>): string
  {
    if field.Some? then field.value else "undefined"
  }

  /** `${member.firstName} ${member.lastName}`. */
  function FullName(m: Member): string
  {
    Shown(m.firstName) + " " + Shown(m.lastName)
  }

  predicate MatchesType(m: Member, f: MemberFilter)
  {
    f.memberType == "All" || m.memberType == Some(f.memberType)
  }

  predicate MatchesStatus(m: Member, f: MemberFilter)
  {
    f.status == "All" || m.status == Some(f.status)
  }

  /** The search box: an empty term matches everyone; otherwise the lowered
      term must occur in the lowered full name or in the lowered email, and a
      member without an email can only match by name. */
  function MatchesSearch(m: Member, term: string): (b: bool)
    ensures term == "" ==> b
    ensures b && term != "" ==> |term| <= |FullName(m)| || (m.email.Some? && |term| <= |m.email.value|)
  {
    term == "" ||
    Contains(Lower(FullName(m)), Lower(term)) ||
    (m.email.Some? && Contains(Lower(m.email.value), Lower(term)))
  }

  /** A member passes all three tests: a type or status other than `'All'`
      must be the member's own, and the defaults keep everyone. */
  function Keep(m: Member, f: MemberFilter, term: string): (b: bool)
    ensures b && f.memberType != "All" ==> m.memberType == Some(f.memberType)
    ensures b && f.status != "All" ==> m.status == Some(f.status)
    ensures f == NoFilter && term == "" ==> b
  {
    MatchesType(m, f) && MatchesStatus(m, f) && MatchesSearch(m, term)
  }

  /** `filteredMembers`: the loaded members that pass all three tests, in the
      order they were loaded. */
  function FilteredMembers(members: seq<Member>, f: MemberFilter, term: string): (r: seq<Member>)
    ensures forall m :: m in r <==> m in members && Keep(m, f, term)
    ensures Subsequence(r, members)
  {
    FilterIsSubsequence(m => Keep(m, f, term), members);
    Filter(m => Keep(m, f, term), members)
  }

  /** Loading one more member adds it at the end of the filtered list exactly
      when it passes; nothing already shown moves. */
  lemma {:induction false} FilteredMembersAppend(members: seq<Member>, m: Member, f: MemberFilter, term: string)
    ensures FilteredMembers(members + [m], f, term) ==
            FilteredMembers(members, f, term) + (if Keep(m, f, term) then [m] else [])
  {
    FilterAppend(m' => Keep(m', f, term), members, [m]);
    assert Filter(m' => Keep(m', f, term), [m]) == if Keep(m, f, term) then [m] else [];
  }

  /** With both filters at `'All'` and an empty search box every loaded
      member is shown, in order. */
  lemma {:induction false} NoFilterShowsEveryone(members: seq<Member>)
    ensures FilteredMembers(members, NoFilter, "") == members
  {
    FilterKeepsAll(m => Keep(m, NoFilter, ""), members);
  }

  /** Search ignores case: two terms that lower to the same string select the
      same members. */
  lemma {:induction false} SearchIgnoresCase(m: Member, t1: string, t2: string)
    requires Lower(t1) == Lower(t2)
    ensures MatchesSearch(m, t1) == MatchesSearch(m, t2)
  {
    assert |t1| == |Lower(t1)| == |Lower(t2)| == |t2|;
  }

  /** A non-empty term matches a member exactly when it occurs, ignoring
      case, at some position of the full name or of the email. */
  lemma {:induction false} SearchIsSubstringMatch(m: Member, term: string)
    requires term != ""
    ensures MatchesSearch(m, term) <==>
      (exists i :: OccursAt(Lower(FullName(m)), Lower(term), i)) ||
      (m.email.Some? && exists i :: OccursAt(Lower(m.email.value), Lower(term), i))
  {
    ContainsAt(Lower(FullName(m)), Lower(term));
    if m.email.Some? {
      ContainsAt(Lower(m.email.value), Lower(term));
    }
  }

  /** A member document written by registration has no `memberType` and a
      status of `'Active'`: the dashboard sees it that way. */
  lemma {:induction false} RegisteredMemberView(form: Doc, age: Value, photoURL: string, stamp: int)
    requires form.Keys == BlankForm.Keys
    ensures MemberView(MemberDocument(form, age, photoURL, stamp)).memberType == None
    ensures MemberView(MemberDocument(form, age, photoURL, stamp)).status == Some("Active")
  {
    NoMemberTypeStored(form, age, photoURL, stamp);
  }

  /** With a type other than `'All'` chosen, every shown member has exactly
      that type. */
  lemma TypeFilterShowsOnlyThatType(members: seq<Member>, f: MemberFilter, term: string)
    requires f.memberType != "All"
    ensures forall m :: m in FilteredMembers(members, f, term) ==> m.memberType == Some(f.memberType)
  {
  }

  /** The type drop-down and the classification buttons of registration
      share no value: a member whose type were a classification would still
      be hidden by every type the dashboard offers. */
  lemma {:induction false} ClassificationsMatchNoOfferedType(m: Member, f: MemberFilter, term: string)
    requires f.memberType in OfferedTypes
    requires m.memberType.Some? && m.memberType.value in Classifications
    ensures !Keep(m, f, term)
  {
    assert f.memberType == "Maggot" || f.memberType == "Member";
  }

  /** Choosing any type other than `'All'` (in particular `'Maggot'` or
      `'Member'`) hides every member without a `memberType`, which is every
      member that registration wrote. */
  lemma {:induction false} TypeFilterHidesUntypedMembers(members: seq<Member>, f: MemberFilter, term: string)
    requires f.memberType != "All"
    requires forall m :: m in members ==> m.memberType == None
    ensures FilteredMembers(members, f, term) == []
  {
    FilterKeepsNone(m => Keep(m, f, term), members);
  }

  // ---------------------------------------------------------------------------
  // Finance
  // ---------------------------------------------------------------------------

  /** A financial record: its `type` as stored and its amount in fils. */
  datatype Transaction = Transaction(kind: string, amount: int)

  predicate IsIncome(t: Transaction) { t.kind == "IN" }
  predicate IsExpense(t: Transaction) { t.kind == "OUT" }
  predicate IsOtherKind(t: Transaction) { !IsIncome(t) && !IsExpense(t) }

  /** The effect of one record on the balance: `'IN'` adds, anything else
      subtracts. */
  function Effect(t: Transaction): int
  {
    if IsIncome(t) then t.amount else -t.amount
  }

  /** `reduce` with an explicit starting accumulator. */
  function BalanceFrom(acc: int, ts: seq<Transaction>): int
    decreases |ts|
  {
    if ts == [] then acc else BalanceFrom(acc + Effect(ts[0]), ts[1..])
  }

  /** `calculateBalance`: the fold from 0. */
  function Balance(ts: seq<Transaction>): (r: int)
    ensures ts == [] ==> r == 0
  {
    BalanceFrom(0, ts)
  }

  function SumFrom(acc: int, ts: seq<Transaction>): int
    decreases |ts|
  {
    if ts == [] then acc else SumFrom(acc + ts[0].amount, ts[1..])
  }

  /** The amounts added up from 0. */
  function SumAmounts(ts: seq<Transaction>): int
  {
    SumFrom(0, ts)
  }

  /** `totalIncome`: the amounts of the `'IN'` records; with none it is 0,
      and non-negative amounts give a non-negative total. */
  function TotalIncome(ts: seq<Transaction>): (r: int)
    ensures (forall i :: 0 <= i < |ts| ==> !IsIncome(ts[i])) ==> r == 0
    ensures (forall i :: 0 <= i < |ts| ==> ts[i].amount >= 0) ==> r >= 0
  {
    FilteredSum(IsIncome, ts);
    SumAmounts(Filter(IsIncome, ts))
  }

  /** `totalExpenses`: the amounts of the `'OUT'` records; with none it is
      0, and non-negative amounts give a non-negative total. */
  function TotalExpenses(ts: seq<Transaction>): (r: int)
    ensures (forall i :: 0 <= i < |ts| ==> !IsExpense(ts[i])) ==> r == 0
    ensures (forall i :: 0 <= i < |ts| ==> ts[i].amount >= 0) ==> r >= 0
  {
    FilteredSum(IsExpense, ts);
    SumAmounts(Filter(IsExpense, ts))
  }

  lemma {:induction false} FilteredSum(p: Transaction -> bool, ts: seq<Transaction>)
    ensures (forall i :: 0 <= i < |ts| ==> !p(ts[i])) ==> SumAmounts(Filter(p, ts)) == 0
    ensures (forall i :: 0 <= i < |ts| ==> ts[i].amount >= 0) ==> SumAmounts(Filter(p, ts)) >= 0
  {
    if forall i :: 0 <= i < |ts| ==> !p(ts[i]) {
      FilterKeepsNone(p, ts);
    }
    if forall i :: 0 <= i < |ts| ==> ts[i].amount >= 0 {
      SumNonNegative(Filter(p, ts));
    }
  }

  lemma {:induction false} SumAmountsAppend(a: seq<Transaction>, b: seq<Transaction>)
    ensures SumAmounts(a + b) == SumAmounts(a) + SumAmounts(b)
    decreases |a|
  {
    if a == [] {
      assert a + b == b;
    } else {
      assert a + b == [a[0]] + (a[1..] + b);
      assert a == [a[0]] + a[1..];
      SumAmountsCons(a[0], a[1..] + b);
      SumAmountsCons(a[0], a[1..]);
      SumAmountsAppend(a[1..], b);
    }
  }

  /** Appending a record adds its amount to total income if it is `'IN'`,
      to total expenses if it is `'OUT'`, and to neither otherwise. */
  lemma {:induction false} TotalsAppend(ts: seq<Transaction>, t: Transaction)
    ensures TotalIncome(ts + [t]) == TotalIncome(ts) + (if t.kind == "IN" then t.amount else 0)
    ensures TotalExpenses(ts + [t]) == TotalExpenses(ts) + (if t.kind == "OUT" then t.amount else 0)
  {
    FilterAppend(IsIncome, ts, [t]);
    FilterAppend(IsExpense, ts, [t]);
    SumAmountsAppend(Filter(IsIncome, ts), Filter(IsIncome, [t]));
    SumAmountsAppend(Filter(IsExpense, ts), Filter(IsExpense, [t]));
    assert Filter(IsIncome, [t]) == if IsIncome(t) then [t] else [];
    assert Filter(IsExpense, [t]) == if IsExpense(t) then [t] else [];
    assert SumAmounts([t]) == t.amount by {
      SumAmountsCons(t, []);
      assert [t] + [] == [t];
    }
  }

  /** What records of any other type take out of the balance. */
  function OtherOutflow(ts: seq<Transaction>): int
  {
    SumAmounts(Filter(IsOtherKind, ts))
  }

  lemma {:induction false} BalanceFromShift(acc: int, ts: seq<Transaction>)
    ensures BalanceFrom(acc, ts) == acc + Balance(ts)
    decreases |ts|
  {
    if ts != [] {
      BalanceFromShift(acc + Effect(ts[0]), ts[1..]);
      BalanceFromShift(Effect(ts[0]), ts[1..]);
    }
  }

  lemma {:induction false} SumFromShift(acc: int, ts: seq<Transaction>)
    ensures SumFrom(acc, ts) == acc + SumAmounts(ts)
    decreases |ts|
  {
    if ts != [] {
      SumFromShift(acc + ts[0].amount, ts[1..]);
      SumFromShift(ts[0].amount, ts[1..]);
    }
  }

  /** Appending a record moves the balance by that record's effect. */
  lemma {:induction false} BalanceAppend(ts: seq<Transaction>, t: Transaction)
    ensures Balance(ts + [t]) == Balance(ts) + (if t.kind == "IN" then t.amount else -t.amount)
    decreases |ts|
  {
    if ts == [] {
      assert ts + [t] == [t];
      assert [t][1..] == [];
      assert BalanceFrom(0, [t]) == BalanceFrom(Effect(t), []);
    } else {
      assert (ts + [t])[0] == ts[0];
      assert (ts + [t])[1..] == ts[1..] + [t];
      BalanceFromShift(Effect(ts[0]), ts[1..] + [t]);
      BalanceFromShift(Effect(ts[0]), ts[1..]);
      BalanceAppend(ts[1..], t);
    }
  }

  lemma {:induction false} SumAmountsCons(t: Transaction, ts: seq<Transaction>)
    ensures SumAmounts([t] + ts) == t.amount + SumAmounts(ts)
  {
    assert ([t] + ts)[1..] == ts;
    SumFromShift(t.amount, ts);
  }

  /** The balance is income minus expenses minus whatever records of other
      types hold: those lower the balance yet appear in neither total. */
  lemma {:induction false} BalanceDecomposes(ts: seq<Transaction>)
    ensures Balance(ts) == TotalIncome(ts) - TotalExpenses(ts) - OtherOutflow(ts)
    decreases |ts|
  {
    if ts != [] {
      var t, rest := ts[0], ts[1..];
      BalanceDecomposes(rest);
      BalanceFromShift(Effect(t), rest);
      if IsIncome(t) {
        SumAmountsCons(t, Filter(IsIncome, rest));
      } else if IsExpense(t) {
        SumAmountsCons(t, Filter(IsExpense, rest));
      } else {
        SumAmountsCons(t, Filter(IsOtherKind, rest));
      }
    }
  }

  /** When every record is `'IN'` or `'OUT'`, the balance is exactly total
      income minus total expenses. */
  lemma {:induction false} BalanceIsIncomeMinusExpenses(ts: seq<Transaction>)
    requires forall i :: 0 <= i < |ts| ==> ts[i].kind == "IN" || ts[i].kind == "OUT"
    ensures Balance(ts) == TotalIncome(ts) - TotalExpenses(ts)
  {
    BalanceDecomposes(ts);
    FilterKeepsNone(IsOtherKind, ts);
  }

  /** With non-negative amounts both totals are non-negative and the balance
      lies between minus the outflow and the income. */
  lemma {:induction false} SummaryBounds(ts: seq<Transaction>)
    requires forall i :: 0 <= i < |ts| ==> ts[i].amount >= 0
    ensures TotalIncome(ts) >= 0 && TotalExpenses(ts) >= 0
    ensures -(TotalExpenses(ts) + OtherOutflow(ts)) <= Balance(ts) <= TotalIncome(ts)
  {
    SumNonNegative(Filter(IsIncome, ts));
    SumNonNegative(Filter(IsExpense, ts));
    SumNonNegative(Filter(IsOtherKind, ts));
    BalanceDecomposes(ts);
  }

  lemma {:induction false} SumNonNegative(ts: seq<Transaction>)
    requires forall t :: t in ts ==> t.amount >= 0
    ensures SumAmounts(ts) >= 0
    decreases |ts|
  {
    if ts != [] {
      assert ts == [ts[0]] + ts[1..];
      SumAmountsCons(ts[0], ts[1..]);
      SumNonNegative(ts[1..]);
    }
  }
}
