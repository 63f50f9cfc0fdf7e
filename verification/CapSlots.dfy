/**
 The capability numbering a benchmark process offers its allocator: contiguous indices over a
 capability space whose populated part has holes that depend on the configuration.
 */
module CapSlots {

  /** `asid` and `context` are the slots of the ASID pool and of the first of the two
      scheduling-context slots in the layout that processes are started with. */
  datatype Layout = Layout(firstFree: int, x86_64: bool, mcs: bool, asid: int, context: int)

  function GetCapCount(l: Layout): int {
    var last := l.firstFree - 1;
    var last := if l.x86_64 then last - 1 else last;
    if !l.mcs then last - 2 else last
  }

  const CAP_NULL: int := 0

  function GetNthCap(l: Layout, n: int): int {
    if n < GetCapCount(l) then
      var n := n + 1;
      var n := if l.x86_64 && n >= l.asid then n + 1 else n;
      if !l.mcs && n >= l.context then n + 2 else n
    else CAP_NULL
  }

  predicate IsHole(l: Layout, slot: int) {
    || (l.x86_64 && slot == l.asid)
    || (!l.mcs && (slot == l.context || slot == l.context + 1))
  }

  predicate Populated(l: Layout, slot: int) { 1 <= slot < l.firstFree && !IsHole(l, slot) }

  /** Every hole lies among the slots below the first free one, and no slot is two holes. */
  predicate HolesInside(l: Layout) {
    && l.firstFree >= 1
    && (l.x86_64 ==> 1 <= l.asid < l.firstFree)
    && (!l.mcs ==> 1 <= l.context && l.context + 1 < l.firstFree)
    && (l.x86_64 && !l.mcs ==> l.asid != l.context && l.asid != l.context + 1)
  }

  predicate AsidFirst(l: Layout) { l.x86_64 && !l.mcs ==> l.asid < l.context }

  /** The number of populated slots below `slot`, by counting them. */
  function CountBelow(l: Layout, slot: int): (c: int)
    decreases slot
  {
    if slot <= 1 then 0
    else CountBelow(l, slot - 1) + if Populated(l, slot - 1) then 1 else 0
  }

  /** Counting slot by slot agrees with subtracting the holes passed so far. */
  lemma {:induction false} CountInClosedForm(l: Layout, slot: int)
    requires HolesInside(l) && 1 <= slot <= l.firstFree
    ensures CountBelow(l, slot) == slot - 1
      - (if l.x86_64 && l.asid < slot then 1 else 0)
      - (if !l.mcs && l.context < slot then 1 else 0)
      - (if !l.mcs && l.context + 1 < slot then 1 else 0)
    decreases slot
  {
    if slot > 1 { CountInClosedForm(l, slot - 1); }
  }

  /** The announced count is the number of populated slots. */
  lemma CountIsExact(l: Layout)
    requires HolesInside(l)
    ensures GetCapCount(l) == CountBelow(l, l.firstFree)
  {
    CountInClosedForm(l, l.firstFree);
  }

  /** Index n names the populated slot that has exactly n populated slots below it. */
  lemma NthCapIsNth(l: Layout, n: int)
    requires HolesInside(l) && AsidFirst(l) && 0 <= n < GetCapCount(l)
    ensures Populated(l, GetNthCap(l, n)) && CountBelow(l, GetNthCap(l, n)) == n
  {
    CountInClosedForm(l, GetNthCap(l, n));
  }

  /** Every populated slot is named, by the number of populated slots below it. */
  lemma EverySlotIsNamed(l: Layout, slot: int)
    requires HolesInside(l) && AsidFirst(l) && Populated(l, slot)
    ensures 0 <= CountBelow(l, slot) < GetCapCount(l) && GetNthCap(l, CountBelow(l, slot)) == slot
  {
    CountInClosedForm(l, slot);
  }

  /** The numbering is an order isomorphism from [0, count) onto the populated slots, and
      null from there on. */
  lemma OrderIsomorphism(l: Layout)
    requires HolesInside(l) && AsidFirst(l)
    ensures forall n :: 0 <= n < GetCapCount(l) ==> Populated(l, GetNthCap(l, n))
    ensures forall m, n :: 0 <= m < n < GetCapCount(l) ==> GetNthCap(l, m) < GetNthCap(l, n)
    ensures forall slot :: Populated(l, slot) ==> exists n :: 0 <= n < GetCapCount(l) && GetNthCap(l, n) == slot
    ensures forall n :: n >= GetCapCount(l) ==> GetNthCap(l, n) == CAP_NULL
  {
    forall n | 0 <= n < GetCapCount(l) ensures Populated(l, GetNthCap(l, n)) { NthCapIsNth(l, n); }
    forall slot | Populated(l, slot) ensures exists n :: 0 <= n < GetCapCount(l) && GetNthCap(l, n) == slot {
      EverySlotIsNamed(l, slot);
    }
  }

  ghost predicate NamesOnlyPopulated(l: Layout) {
    forall n :: 0 <= n < GetCapCount(l) ==> Populated(l, GetNthCap(l, n))
  }

  /** The order of the two adjustments matters: with both kinds of hole present, the numbering
      avoids the holes exactly when the ASID pool slot is the lower one, or the last slot of all. */
  lemma OrderOfHolesMatters(l: Layout)
    requires HolesInside(l)
    ensures NamesOnlyPopulated(l) <==> AsidFirst(l) || l.asid == l.firstFree - 1
  {
    if AsidFirst(l) {
      OrderIsomorphism(l);
    } else {
      assert l.asid != l.firstFree - 1 ==> GetNthCap(l, l.asid - 3) == l.asid;
    }
  }
}
