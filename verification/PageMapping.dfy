/**
 The page-mapping benchmark: a process retypes page tables and pages out of one untyped
 capability, maps them, protects and unprotects them; the driver then revokes the untyped and
 starts the next round from the same slot.
 */
module PageMapping {
  import opened Options
  import opened Modular

  const PAGE_SIZE: nat := 4096
  /** Size of the untyped the driver allocates: 2^(12 + 12) bytes. */
  const BUDGET: nat := 0x100_0000

  /** `perTable` entries fill a page table of `tableSize` bytes; mapping starts at page number
      `firstPage`. */
  datatype Config = Config(levels: nat, perTable: nat, tableSize: nat, firstPage: nat)

  datatype Rights = CanRead | AllRights
  datatype Owner = Outside | InSlot(slot: nat)
  datatype Cap = Other | Untyped | Table(level: nat, mapped: bool) | Unmapped | Page(number: nat)
  datatype Key = Key(level: nat, region: nat)
  datatype Mapping = Mapping(owner: Owner, rights: Rights)
  datatype Error = NoError | DeleteFirst | NotEnoughMemory | InvalidCapability | FailedLookup | AlignmentError

  /** The process as the kernel sees it: its capability slots, how far its untyped is used up,
      and the page tables and pages of its address space. */
  datatype Space = Space(slots: map<nat, Cap>, watermark: nat, tables: map<Key, Owner>, pages: map<nat, Mapping>)
  datatype Tried = Tried(err: Error, space: Space)

  // ---------------------------------------------------------------------------
  // Sizes and regions
  // ---------------------------------------------------------------------------

  /** Tables above the leaf tables that are retyped. */
  function Uppers(c: Config): nat {
    (if c.levels == 4 then 1 else 0) + (if c.levels >= 3 then 1 else 0)
  }

  function NumTables(c: Config, npage: nat): nat
    requires c.perTable > 0
  {
    Quotient(npage + c.perTable - 1, c.perTable)
  }

  /** As many tables as are needed and no more. */
  lemma NumTablesIsCeiling(c: Config, npage: nat)
    requires c.perTable > 0
    ensures npage <= NumTables(c, npage) * c.perTable
    ensures NumTables(c, npage) * c.perTable < npage + c.perTable
  {
    QuotientAndRemainder(npage + c.perTable - 1, c.perTable);
  }

  /** The page at which leaf table i starts. */
  function TablePage(c: Config, i: nat): nat {
    if i == 0 then c.firstPage else TablePage(c, i - 1) + c.perTable
  }

  function StartAddress(c: Config): nat { PAGE_SIZE * c.firstPage }

  /** The leaf-table region of the first page. */
  function Base(c: Config): nat
    requires c.perTable > 0
  {
    Quotient(c.firstPage, c.perTable)
  }

  /** The bytes that `count` tables take. */
  function TableBytes(c: Config, count: nat): nat {
    if count == 0 then 0 else TableBytes(c, count - 1) + c.tableSize
  }

  function Align(x: nat, a: nat): nat
    requires a > 0
  {
    if Remainder(x, a) == 0 then x else x + a - Remainder(x, a)
  }

  /** The bytes all tables and pages take, the pages starting on a page boundary. */
  function Needed(c: Config, npage: nat): nat
    requires c.perTable > 0
  {
    var bytes := TableBytes(c, Uppers(c) + NumTables(c, npage));
    if npage == 0 then bytes else Align(bytes, PAGE_SIZE) + npage * PAGE_SIZE
  }

  predicate Fits(c: Config, npage: nat)
    requires c.perTable > 0
  {
    Needed(c, npage) <= BUDGET
  }

  /** The region of a table, by level from the leaves up, that page number p falls in. */
  function Region(c: Config, level: nat, p: nat): nat
    requires c.perTable > 0
  {
    Quotient(if level == 0 then p else Region(c, level - 1, p), c.perTable)
  }

  /** Each level up covers `perTable` times as many pages. */
  lemma RegionsNest(c: Config, level: nat, p: nat)
    requires c.perTable > 0
    ensures Region(c, 0, p) == p / c.perTable
    ensures Region(c, level + 1, p) == Region(c, level, p) / c.perTable
  {
    QuotientAndRemainder(p, c.perTable);
    QuotientAndRemainder(Region(c, level, p), c.perTable);
  }

  /** All leaf tables the budget allows lie below one next-level table. */
  ghost predicate Valid(c: Config) {
    && 2 <= c.levels <= 4 && c.perTable > 0 && c.tableSize > 0 && Remainder(c.firstPage, c.perTable) == 0
    && (c.levels >= 3 ==> Remainder(Base(c), c.perTable) + NumTables(c, BUDGET / PAGE_SIZE) <= c.perTable)
  }

  // ---------------------------------------------------------------------------
  // Kernel calls
  // ---------------------------------------------------------------------------

  function Retype(s: Space, cap: Cap, size: nat, slot: nat): Tried
    requires size > 0
  {
    if slot in s.slots then Tried(DeleteFirst, s)
    else if Align(s.watermark, size) + size > BUDGET then Tried(NotEnoughMemory, s)
    else Tried(NoError, s.(slots := s.slots[slot := cap], watermark := Align(s.watermark, size) + size))
  }

  /** A table goes below the root or below a table of the next level. */
  function PlaceError(c: Config, tables: map<Key, Owner>, level: nat, p: nat): Error
    requires c.perTable > 0
  {
    if level + 2 < c.levels && Key(level + 1, Region(c, level + 1, p)) !in tables then FailedLookup
    else if Key(level, Region(c, level, p)) in tables then DeleteFirst
    else NoError
  }

  function MapTable(c: Config, s: Space, level: nat, slot: nat, addr: nat): Tried
    requires c.perTable > 0
  {
    var p := addr / PAGE_SIZE;
    if slot !in s.slots || s.slots[slot] != Table(level, false) then Tried(InvalidCapability, s)
    else if PlaceError(c, s.tables, level, p) != NoError then Tried(PlaceError(c, s.tables, level, p), s)
    else Tried(NoError, s.(slots := s.slots[slot := Table(level, true)],
                           tables := s.tables[Key(level, Region(c, level, p)) := InSlot(slot)]))
  }

  /** Maps a page, or changes the rights of one that this capability has mapped there. */
  function MapPage(c: Config, s: Space, slot: nat, addr: nat, rights: Rights): Tried
    requires c.perTable > 0
  {
    var p := addr / PAGE_SIZE;
    if slot !in s.slots || !(s.slots[slot].Unmapped? || s.slots[slot].Page?) then Tried(InvalidCapability, s)
    else if addr % PAGE_SIZE != 0 then Tried(AlignmentError, s)
    else if s.slots[slot].Page? && s.slots[slot].number != p then Tried(InvalidCapability, s)
    else if Key(0, Region(c, 0, p)) !in s.tables then Tried(FailedLookup, s)
    else if s.slots[slot].Unmapped? && p in s.pages then Tried(DeleteFirst, s)
    else Tried(NoError, s.(slots := s.slots[slot := Page(p)],
                           pages := s.pages[p := Mapping(InSlot(slot), rights)]))
  }

  /** Copying the driver's unused untyped capability into the process. */
  function CopyUntyped(s: Space, slot: nat): Space {
    s.(slots := s.slots[slot := Untyped], watermark := 0)
  }

  /** Revoking the driver's untyped capability deletes its copy and all that was retyped. */
  function Revoke(s: Space): Space {
    Space(map k | k in s.slots && s.slots[k] == Other :: Other,
          0,
          map k | k in s.tables && s.tables[k] == Outside :: Outside,
          map p | p in s.pages && s.pages[p].owner == Outside :: s.pages[p])
  }

  // ---------------------------------------------------------------------------
  // What each phase does, call by call
  // ---------------------------------------------------------------------------

  /** Retyping a table and mapping it. */
  function AddTable(c: Config, s: Space, level: nat, slot: nat, addr: nat): Tried
    requires c.perTable > 0 && c.tableSize > 0
  {
    var w := Align(s.watermark, c.tableSize) + c.tableSize;
    if slot in s.slots then Tried(DeleteFirst, s)
    else if w > BUDGET then Tried(NotEnoughMemory, s)
    else
      var p := addr / PAGE_SIZE;
      var err := PlaceError(c, s.tables, level, p);
      Tried(err, Space(s.slots[slot := Table(level, err == NoError)], w,
        if err == NoError then s.tables[Key(level, Region(c, level, p)) := InSlot(slot)] else s.tables, s.pages))
  }

  lemma AddTableIsTwoCalls(c: Config, s: Space, level: nat, slot: nat, addr: nat)
    requires c.perTable > 0 && c.tableSize > 0
    ensures var r := Retype(s, Table(level, false), c.tableSize, slot);
      AddTable(c, s, level, slot, addr) == if r.err == NoError then MapTable(c, r.space, level, slot, addr) else r
  {
    var r := Retype(s, Table(level, false), c.tableSize, slot);
    assert slot !in s.slots ==>
      r.space.slots[slot := Table(level, true)] == s.slots[slot := Table(level, true)];
  }

  /** The intermediate tables. That the place of the upper one is taken is no failure; that its
      slot is taken is. */
  function AddUppers(c: Config, s: Space, slot: nat, addr: nat): Option<Space>
    requires c.perTable > 0 && c.tableSize > 0
  {
    var r := AddTable(c, s, 2, slot, addr);
    if c.levels == 4 && (slot in s.slots || (r.err != NoError && r.err != DeleteFirst)) then None
    else
      var s := if c.levels == 4 then r.space else s;
      var slot := if c.levels == 4 then slot + 1 else slot;
      if c.levels < 3 then Some(s)
      else
        var r := AddTable(c, s, 1, slot, addr);
        if r.err != NoError then None else Some(r.space)
  }

  function AddLeaves(c: Config, s: Space, slot: nat, addr: nat, n: nat): Option<Space>
    requires c.perTable > 0 && c.tableSize > 0
    decreases n
  {
    if n == 0 then Some(s)
    else
      var r := AddTable(c, s, 0, slot, addr);
      if r.err != NoError then None
      else AddLeaves(c, r.space, slot + 1, addr + PAGE_SIZE * c.perTable, n - 1)
  }

  function AddPages(s: Space, slot: nat, n: nat): Option<Space>
    decreases n
  {
    if n == 0 then Some(s)
    else
      var r := Retype(s, Unmapped, PAGE_SIZE, slot);
      if r.err != NoError then None else AddPages(r.space, slot + 1, n - 1)
  }

  function MapAll(c: Config, s: Space, slot: nat, addr: nat, n: nat, rights: Rights): Option<Space>
    requires c.perTable > 0
    decreases n
  {
    if n == 0 then Some(s)
    else
      var r := MapPage(c, s, slot, addr, rights);
      if r.err != NoError then None else MapAll(c, r.space, slot + 1, addr + PAGE_SIZE, n - 1, rights)
  }

  function TablesPhase(c: Config, s: Space, slot: nat, addr: nat, npage: nat): Option<Space>
    requires c.perTable > 0 && c.tableSize > 0
  {
    match AddUppers(c, s, slot, addr)
    case None => None
    case Some(t) => AddLeaves(c, t, slot + Uppers(c), addr, NumTables(c, npage))
  }

  // ---------------------------------------------------------------------------
  // What every call keeps
  // ---------------------------------------------------------------------------

  /** Pages mapped by this process and page capabilities that are mapped are in one-to-one
      correspondence. */
  ghost predicate Owned(s: Space) {
    && (forall k :: k in s.slots && s.slots[k].Page? ==>
          s.slots[k].number in s.pages && s.pages[s.slots[k].number].owner == InSlot(k))
    && (forall p :: p in s.pages && s.pages[p].owner.InSlot? ==>
          s.pages[p].owner.slot in s.slots && s.slots[s.pages[p].owner.slot] == Page(p))
  }

  /** The correspondence holds, and revocation would leave the same as before. */
  ghost predicate Keeps(s: Space, t: Space) { Owned(t) && Revoke(t) == Revoke(s) }

  /** Nothing derived from the driver's untyped is there. */
  ghost predicate OnlyOutside(s: Space) {
    && s.watermark == 0
    && (forall k :: k in s.slots ==> s.slots[k] == Other)
    && (forall k :: k in s.tables ==> s.tables[k] == Outside)
    && (forall p :: p in s.pages ==> s.pages[p].owner == Outside)
  }

  /** The copy of an unused untyped in one more slot, and nothing else. */
  predicate StartsFresh(s: Space, t: Space, slot: nat) {
    t.slots == s.slots[slot := Untyped] && t.watermark == 0 && t.tables == s.tables && t.pages == s.pages
  }

  /** Revocation keeps exactly what is not derived from the driver's untyped. */
  lemma RevokeKeepsOutside(s: Space)
    ensures OnlyOutside(Revoke(s))
    ensures forall k :: k in Revoke(s).slots <==> k in s.slots && s.slots[k] == Other
    ensures forall k :: k in Revoke(s).tables <==> k in s.tables && s.tables[k] == Outside
    ensures forall p :: p in Revoke(s).pages <==> p in s.pages && s.pages[p].owner == Outside
    ensures forall p :: p in Revoke(s).pages ==> Revoke(s).pages[p] == s.pages[p]
  {
  }

  lemma OutsideSurvives(s: Space)
    requires OnlyOutside(s)
    ensures Revoke(s) == s
  {
    var t := Revoke(s);
    RevokeKeepsOutside(s);
    assert t.slots == s.slots;
    assert t.tables == s.tables;
    assert t.pages == s.pages;
  }

  lemma RetypeKeeps(s: Space, cap: Cap, size: nat, slot: nat)
    requires Owned(s) && size > 0 && !cap.Other? && !cap.Page?
    ensures Keeps(s, Retype(s, cap, size, slot).space)
  {
  }

  lemma MapTableKeeps(c: Config, s: Space, level: nat, slot: nat, addr: nat)
    requires Owned(s) && c.perTable > 0
    ensures Keeps(s, MapTable(c, s, level, slot, addr).space)
  {
  }

  lemma AddTableKeeps(c: Config, s: Space, level: nat, slot: nat, addr: nat)
    requires Owned(s) && c.perTable > 0 && c.tableSize > 0
    ensures Keeps(s, AddTable(c, s, level, slot, addr).space)
  {
    AddTableIsTwoCalls(c, s, level, slot, addr);
    RetypeKeeps(s, Table(level, false), c.tableSize, slot);
    var r := Retype(s, Table(level, false), c.tableSize, slot);
    MapTableKeeps(c, r.space, level, slot, addr);
  }

  lemma MapPageOwned(c: Config, s: Space, slot: nat, addr: nat, rights: Rights)
    requires Owned(s) && c.perTable > 0
    ensures Owned(MapPage(c, s, slot, addr, rights).space)
  {
  }

  lemma MapPageKeeps(c: Config, s: Space, slot: nat, addr: nat, rights: Rights)
    requires Owned(s) && c.perTable > 0
    ensures Keeps(s, MapPage(c, s, slot, addr, rights).space)
  {
    MapPageOwned(c, s, slot, addr, rights);
  }

  lemma CopyUntypedKeeps(s: Space, slot: nat)
    requires Owned(s) && slot !in s.slots
    ensures Keeps(s, CopyUntyped(s, slot))
  {
  }

  lemma AddUppersKeeps(c: Config, s: Space, slot: nat, addr: nat)
    requires Owned(s) && c.perTable > 0 && c.tableSize > 0
    ensures var r := AddUppers(c, s, slot, addr); r.Some? ==> Keeps(s, r.value)
  {
    AddTableKeeps(c, s, 2, slot, addr);
    AddTableKeeps(c, s, 1, slot, addr);
    AddTableKeeps(c, AddTable(c, s, 2, slot, addr).space, 1, slot + 1, addr);
  }

  lemma {:induction false} AddLeavesKeeps(c: Config, s: Space, slot: nat, addr: nat, n: nat)
    requires Owned(s) && c.perTable > 0 && c.tableSize > 0
    ensures var r := AddLeaves(c, s, slot, addr, n); r.Some? ==> Keeps(s, r.value)
    decreases n
  {
    if n > 0 {
      AddTableKeeps(c, s, 0, slot, addr);
      AddLeavesKeeps(c, AddTable(c, s, 0, slot, addr).space, slot + 1, addr + PAGE_SIZE * c.perTable, n - 1);
    }
  }

  lemma {:induction false} AddPagesKeeps(s: Space, slot: nat, n: nat)
    requires Owned(s)
    ensures var r := AddPages(s, slot, n); r.Some? ==> Keeps(s, r.value)
    decreases n
  {
    if n > 0 {
      RetypeKeeps(s, Unmapped, PAGE_SIZE, slot);
      AddPagesKeeps(Retype(s, Unmapped, PAGE_SIZE, slot).space, slot + 1, n - 1);
    }
  }

  lemma {:induction false} MapAllKeeps(c: Config, s: Space, slot: nat, addr: nat, n: nat, rights: Rights)
    requires Owned(s) && c.perTable > 0
    ensures var r := MapAll(c, s, slot, addr, n, rights); r.Some? ==> Keeps(s, r.value)
    decreases n
  {
    if n > 0 {
      MapPageKeeps(c, s, slot, addr, rights);
      MapAllKeeps(c, MapPage(c, s, slot, addr, rights).space, slot + 1, addr + PAGE_SIZE, n - 1, rights);
    }
  }

  // ---------------------------------------------------------------------------
  // What the table phase leaves behind
  // ---------------------------------------------------------------------------

  ghost predicate NoneFrom(slots: map<nat, Cap>, free: nat) { forall s :: s in slots ==> s < free }

  /** After tables only, the next table needs no padding. */
  lemma {:induction false} AlignTables(c: Config, count: nat)
    requires c.tableSize > 0
    ensures Remainder(TableBytes(c, count), c.tableSize) == 0
    decreases count
  {
    if count > 0 { AlignTables(c, count - 1); }
  }

  /** One table after `count` others. */
  lemma AddTableResult(c: Config, s: Space, level: nat, slot: nat, addr: nat, count: nat)
    requires c.perTable > 0 && c.tableSize > 0 && s.watermark == TableBytes(c, count)
    ensures var r := AddTable(c, s, level, slot, addr);
      var p := addr / PAGE_SIZE;
      if slot in s.slots then r == Tried(DeleteFirst, s)
      else if TableBytes(c, count + 1) > BUDGET then r == Tried(NotEnoughMemory, s)
      else r.err == PlaceError(c, s.tables, level, p) && r.space == Space(
        s.slots[slot := Table(level, r.err == NoError)], TableBytes(c, count + 1),
        if r.err == NoError then s.tables[Key(level, Region(c, level, p)) := InSlot(slot)] else s.tables,
        s.pages)
  {
    AlignTables(c, count);
  }

  /** The address of leaf table i is the start of region base + i. */
  lemma {:induction false} LeafPlace(c: Config, i: nat)
    requires c.perTable > 0
    ensures Region(c, 0, TablePage(c, i)) == Base(c) + i
    decreases i
  {
    if i > 0 { LeafPlace(c, i - 1); }
  }

  /** Adding one leaf table, and a row of them, when nothing goes wrong. */
  function PutLeaf(s: Space, slot: nat, region: nat, size: nat): Space {
    Space(s.slots[slot := Table(0, true)], s.watermark + size, s.tables[Key(0, region) := InSlot(slot)], s.pages)
  }

  function PutLeaves(s: Space, slot: nat, region: nat, size: nat, n: nat): Space
    decreases n
  {
    if n == 0 then s else PutLeaves(PutLeaf(s, slot, region, size), slot + 1, region + 1, size, n - 1)
  }

  lemma OneLeaf(c: Config, s: Space, slot: nat, i: nat, count: nat)
    requires c.perTable > 0 && c.tableSize > 0 && s.watermark == TableBytes(c, count)
    ensures var r := AddTable(c, s, 0, slot, PAGE_SIZE * TablePage(c, i));
      r.err == NoError ==> r.space == PutLeaf(s, slot, Base(c) + i, c.tableSize) && TableBytes(c, count + 1) <= BUDGET
  {
    AddTableResult(c, s, 0, slot, PAGE_SIZE * TablePage(c, i), count);
    LeafPlace(c, i);
  }

  /** If leaf tables i .. i + n succeed, this is exactly what they have added. */
  lemma {:induction false} LeavesForm(c: Config, s: Space, slot: nat, i: nat, n: nat, count: nat)
    requires c.perTable > 0 && c.tableSize > 0 && s.watermark == TableBytes(c, count)
    ensures var r := AddLeaves(c, s, slot, PAGE_SIZE * TablePage(c, i), n);
      r.Some? ==> r.value == PutLeaves(s, slot, Base(c) + i, c.tableSize, n)
    decreases n
  {
    if n > 0 {
      var r := AddTable(c, s, 0, slot, PAGE_SIZE * TablePage(c, i));
      OneLeaf(c, s, slot, i, count);
      if r.err == NoError {
        LeavesForm(c, r.space, slot + 1, i + 1, n - 1, count + 1);
      }
    }
  }

  lemma {:induction false} LeavesFit(c: Config, s: Space, slot: nat, addr: nat, n: nat)
    requires c.perTable > 0 && c.tableSize > 0 && s.watermark <= BUDGET
    ensures var r := AddLeaves(c, s, slot, addr, n); r.Some? ==> r.value.watermark <= BUDGET
    decreases n
  {
    if n > 0 {
      var r := AddTable(c, s, 0, slot, addr);
      if r.err == NoError { LeavesFit(c, r.space, slot + 1, addr + PAGE_SIZE * c.perTable, n - 1); }
    }
  }

  ghost predicate LeafReady(c: Config, tables: map<Key, Owner>, j: nat)
    requires c.perTable > 0
  {
    && Key(0, Base(c) + j) !in tables
    && (c.levels >= 3 ==> Key(1, Region(c, 1, TablePage(c, j))) in tables)
  }

  ghost predicate LeavesReady(c: Config, tables: map<Key, Owner>, i: nat, n: nat)
    requires c.perTable > 0
  {
    forall j :: i <= j < i + n ==> LeafReady(c, tables, j)
  }

  lemma RestStaysReady(c: Config, tables: map<Key, Owner>, i: nat, n: nat, slot: nat)
    requires c.perTable > 0 && n > 0 && LeavesReady(c, tables, i, n)
    ensures LeavesReady(c, tables[Key(0, Base(c) + i) := InSlot(slot)], i + 1, n - 1)
  {
    var t := tables[Key(0, Base(c) + i) := InSlot(slot)];
    forall j | i + 1 <= j < i + n ensures LeafReady(c, t, j) {
      assert LeafReady(c, tables, j);
    }
  }

  lemma OneLeafSucceeds(c: Config, s: Space, slot: nat, i: nat, count: nat)
    requires c.perTable > 0 && c.tableSize > 0 && s.watermark == TableBytes(c, count) && TableBytes(c, count + 1) <= BUDGET
    requires slot !in s.slots && LeafReady(c, s.tables, i) && 2 <= c.levels
    ensures AddTable(c, s, 0, slot, PAGE_SIZE * TablePage(c, i))
         == Tried(NoError, PutLeaf(s, slot, Base(c) + i, c.tableSize))
  {
    LeafPlace(c, i);
    AddTableResult(c, s, 0, slot, PAGE_SIZE * TablePage(c, i), count);
    OneLeaf(c, s, slot, i, count);
  }

  lemma {:induction false} MoreBytes(c: Config, m: nat, n: nat)
    requires m <= n
    ensures TableBytes(c, m) <= TableBytes(c, n)
    decreases n
  {
    if m < n { MoreBytes(c, m, n - 1); }
  }

  /** They do succeed if their places are free, their parents present and the memory suffices. */
  lemma {:induction false} LeavesSucceed(c: Config, s: Space, slot: nat, i: nat, n: nat, count: nat)
    requires c.perTable > 0 && c.tableSize > 0 && 2 <= c.levels
    requires s.watermark == TableBytes(c, count) && TableBytes(c, count + n) <= BUDGET
    requires NoneFrom(s.slots, slot) && LeavesReady(c, s.tables, i, n)
    ensures AddLeaves(c, s, slot, PAGE_SIZE * TablePage(c, i), n).Some?
    decreases n
  {
    if n > 0 {
      MoreBytes(c, count + 1, count + n);
      assert LeafReady(c, s.tables, i);
      OneLeafSucceeds(c, s, slot, i, count);
      RestStaysReady(c, s.tables, i, n, slot);
      LeavesSucceed(c, PutLeaf(s, slot, Base(c) + i, c.tableSize), slot + 1, i + 1, n - 1, count + 1);
    }
  }

  /** The slots used so far are below `slot + n` and those from `slot` on are exactly the new ones. */
  ghost predicate Extends(was: map<nat, Cap>, now: map<nat, Cap>, slot: nat, n: nat) {
    && (forall k :: k in now <==> k in was || slot <= k < slot + n)
    && (forall k :: k in was && k < slot ==> now[k] == was[k])
  }

  lemma {:induction false} LeavesAt(s: Space, slot: nat, region: nat, size: nat, n: nat)
    ensures var t := PutLeaves(s, slot, region, size, n);
      && t.pages == s.pages
      && Extends(s.slots, t.slots, slot, n)
      && (forall k :: k in s.tables ==> k in t.tables)
      && (forall r :: region <= r < region + n ==> Key(0, r) in t.tables)
    decreases n
  {
    if n > 0 { LeavesAt(PutLeaf(s, slot, region, size), slot + 1, region + 1, size, n - 1); }
  }

  ghost predicate SameLeaves(s: Space, t: Space) {
    t.pages == s.pages && forall k :: Key(0, k) in t.tables <==> Key(0, k) in s.tables
  }

  lemma UpperStep(c: Config, s: Space, level: nat, slot: nat, count: nat)
    requires c.perTable > 0 && c.tableSize > 0 && level >= 1
    requires s.watermark == TableBytes(c, count) && NoneFrom(s.slots, slot)
    ensures var r := AddTable(c, s, level, slot, StartAddress(c));
      r.err != NotEnoughMemory ==>
        && r.space.watermark == TableBytes(c, count + 1) <= BUDGET
        && Extends(s.slots, r.space.slots, slot, 1) && SameLeaves(s, r.space)
        && (r.err == NoError ==> Key(level, Region(c, level, c.firstPage)) in r.space.tables)
  {
    AddTableResult(c, s, level, slot, StartAddress(c), count);
  }

  lemma ExtendsTwice(a: map<nat, Cap>, b: map<nat, Cap>, d: map<nat, Cap>, slot: nat, m: nat, n: nat)
    requires Extends(a, b, slot, m) && Extends(b, d, slot + m, n)
    ensures Extends(a, d, slot, m + n)
  {
  }

  /** The intermediate tables, when they succeed. */
  lemma UppersForm(c: Config, s: Space, slot: nat)
    requires Valid(c) && s.watermark == 0 && NoneFrom(s.slots, slot)
    ensures var r := AddUppers(c, s, slot, StartAddress(c));
      r.Some? ==>
        && r.value.watermark == TableBytes(c, Uppers(c)) <= BUDGET
        && Extends(s.slots, r.value.slots, slot, Uppers(c)) && SameLeaves(s, r.value)
        && (c.levels >= 3 ==> Key(1, Region(c, 1, c.firstPage)) in r.value.tables)
  {
    if c.levels == 4 {
      UpperStep(c, s, 2, slot, 0);
      var r := AddTable(c, s, 2, slot, StartAddress(c));
      if r.err != NotEnoughMemory {
        UpperStep(c, r.space, 1, slot + 1, 1);
        var u := AddTable(c, r.space, 1, slot + 1, StartAddress(c));
        if u.err == NoError { ExtendsTwice(s.slots, r.space.slots, u.space.slots, slot, 1, 1); }
      }
    } else if c.levels == 3 {
      UpperStep(c, s, 1, slot, 0);
    }
  }

  lemma UppersSucceed(c: Config, s: Space, slot: nat)
    requires Valid(c) && s.watermark == 0 && NoneFrom(s.slots, slot)
    requires TableBytes(c, Uppers(c)) <= BUDGET && Key(1, Region(c, 1, c.firstPage)) !in s.tables
    ensures AddUppers(c, s, slot, StartAddress(c)).Some?
  {
    AddTableResult(c, s, 2, slot, StartAddress(c), 0);
    if c.levels == 4 {
      AddTableResult(c, AddTable(c, s, 2, slot, StartAddress(c)).space, 1, slot + 1, StartAddress(c), 1);
    } else {
      AddTableResult(c, s, 1, slot, StartAddress(c), 0);
    }
  }

  lemma SameParent(c: Config, i: nat)
    requires c.perTable > 0 && Remainder(Base(c), c.perTable) + i < c.perTable
    ensures Region(c, 1, TablePage(c, i)) == Region(c, 1, c.firstPage)
  {
    LeafPlace(c, i);
    LeafPlace(c, 0);
    QuotientWithoutCarry(Base(c), i, c.perTable);
  }

  lemma NumTablesMonotone(c: Config, m: nat, n: nat)
    requires c.perTable > 0 && m <= n
    ensures NumTables(c, m) <= NumTables(c, n)
  {
    QuotientMonotone(m + c.perTable - 1, n + c.perTable - 1, c.perTable);
  }

  /** No table and no page yet where the benchmark puts its own, and an unused untyped. */
  ghost predicate Ready(c: Config, s: Space, npage: nat)
    requires c.perTable > 0
  {
    && s.watermark == 0 && Owned(s)
    && Key(1, Region(c, 1, c.firstPage)) !in s.tables
    && (forall r :: Base(c) <= r < Base(c) + NumTables(c, npage) ==> Key(0, r) !in s.tables)
    && (forall p :: c.firstPage <= p < c.firstPage + npage ==> p !in s.pages)
  }

  lemma TablesNeeded(c: Config, npage: nat)
    requires c.perTable > 0
    ensures TableBytes(c, Uppers(c)) <= TableBytes(c, Uppers(c) + NumTables(c, npage)) <= Needed(c, npage)
  {
    MoreBytes(c, Uppers(c), Uppers(c) + NumTables(c, npage));
  }

  /** The table phase succeeds whenever everything fits. */
  lemma TablesSucceed(c: Config, s: Space, slot: nat, npage: nat)
    requires Valid(c) && Ready(c, s, npage) && NoneFrom(s.slots, slot) && Fits(c, npage)
    ensures TablesPhase(c, s, slot, StartAddress(c), npage).Some?
  {
    TablesNeeded(c, npage);
    UppersSucceed(c, s, slot);
    UppersForm(c, s, slot);
    var t := AddUppers(c, s, slot, StartAddress(c)).value;
    NumTablesMonotone(c, npage, BUDGET / PAGE_SIZE);
    forall j | 0 <= j < NumTables(c, npage) ensures LeafReady(c, t.tables, j) {
      if c.levels >= 3 { SameParent(c, j); }
    }
    LeavesSucceed(c, t, slot + Uppers(c), 0, NumTables(c, npage), Uppers(c));
  }

  ghost predicate Covered(c: Config, s: Space, p: nat)
    requires c.perTable > 0
  {
    Key(0, Region(c, 0, p)) in s.tables
  }

  ghost predicate AllCovered(c: Config, s: Space, npage: nat)
    requires c.perTable > 0
  {
    forall p :: c.firstPage <= p < c.firstPage + npage ==> Covered(c, s, p)
  }

  lemma PageInTable(c: Config, i: nat, npage: nat)
    requires Valid(c) && i < npage
    ensures Base(c) <= Region(c, 0, c.firstPage + i) < Base(c) + NumTables(c, npage)
  {
    QuotientOfSum(c.firstPage, i, c.perTable);
    QuotientMonotone(i + c.perTable, npage + c.perTable - 1, c.perTable);
  }

  lemma LeavesCover(c: Config, s: Space, slot: nat, npage: nat)
    requires Valid(c)
    ensures AllCovered(c, PutLeaves(s, slot, Base(c), c.tableSize, NumTables(c, npage)), npage)
  {
    LeavesAt(s, slot, Base(c), c.tableSize, NumTables(c, npage));
    var t := PutLeaves(s, slot, Base(c), c.tableSize, NumTables(c, npage));
    forall p | c.firstPage <= p < c.firstPage + npage ensures Covered(c, t, p) {
      PageInTable(c, p - c.firstPage, npage);
    }
  }

  lemma {:induction false} LeavesWatermark(c: Config, s: Space, slot: nat, region: nat, n: nat, count: nat)
    requires s.watermark == TableBytes(c, count)
    ensures PutLeaves(s, slot, region, c.tableSize, n).watermark == TableBytes(c, count + n)
    decreases n
  {
    if n > 0 { LeavesWatermark(c, PutLeaf(s, slot, region, c.tableSize), slot + 1, region + 1, n - 1, count + 1); }
  }

  lemma LeafPhaseForm(c: Config, s: Space, slot: nat, npage: nat)
    requires Valid(c) && s.watermark == TableBytes(c, Uppers(c)) <= BUDGET
    ensures var n := NumTables(c, npage);
      var r := AddLeaves(c, s, slot, StartAddress(c), n);
      r.Some? ==>
        && r.value.watermark == TableBytes(c, Uppers(c) + n) <= BUDGET
        && r.value.pages == s.pages
        && Extends(s.slots, r.value.slots, slot, n)
        && AllCovered(c, r.value, npage)
  {
    var n := NumTables(c, npage);
    LeavesForm(c, s, slot, 0, n, Uppers(c));
    LeavesFit(c, s, slot, StartAddress(c), n);
    LeavesWatermark(c, s, slot, Base(c), n, Uppers(c));
    LeavesAt(s, slot, Base(c), c.tableSize, n);
    LeavesCover(c, s, slot, npage);
  }

  /** What it has done: used fresh slots only, and covered every page the benchmark maps. */
  lemma TablesForm(c: Config, s: Space, slot: nat, npage: nat)
    requires Valid(c) && s.watermark == 0 && NoneFrom(s.slots, slot)
    ensures var n := Uppers(c) + NumTables(c, npage);
      var r := TablesPhase(c, s, slot, StartAddress(c), npage);
      r.Some? ==>
        && r.value.watermark == TableBytes(c, n) <= BUDGET
        && r.value.pages == s.pages
        && Extends(s.slots, r.value.slots, slot, n)
        && AllCovered(c, r.value, npage)
  {
    UppersForm(c, s, slot);
    var u := AddUppers(c, s, slot, StartAddress(c));
    if u.Some? {
      LeafPhaseForm(c, u.value, slot + Uppers(c), npage);
      var t := AddLeaves(c, u.value, slot + Uppers(c), StartAddress(c), NumTables(c, npage));
      if t.Some? {
        ExtendsTwice(s.slots, u.value.slots, t.value.slots, slot, Uppers(c), NumTables(c, npage));
      }
    }
  }

  // ---------------------------------------------------------------------------
  // What the page phases leave behind
  // ---------------------------------------------------------------------------

  /** Aligning rounds up to the next multiple. */
  lemma {:induction false} AlignIsMultiple(w: nat, a: nat)
    requires a > 0
    ensures Remainder(Align(w, a), a) == 0 && w <= Align(w, a) < w + a
    decreases w
  {
    if w >= a { AlignIsMultiple(w - a, a); }
  }

  lemma NextPageAligned(w: nat)
    ensures Align(Align(w, PAGE_SIZE) + PAGE_SIZE, PAGE_SIZE) == Align(w, PAGE_SIZE) + PAGE_SIZE
  {
    AlignIsMultiple(w, PAGE_SIZE);
  }

  /** Pages are retyped one behind the other from the next page boundary on. */
  lemma {:induction false} PagesForm(s: Space, slot: nat, n: nat)
    requires s.watermark <= BUDGET
    ensures var r := AddPages(s, slot, n);
      r.Some? ==>
        && r.value.watermark == (if n == 0 then s.watermark else Align(s.watermark, PAGE_SIZE) + n * PAGE_SIZE) <= BUDGET
        && r.value.tables == s.tables && r.value.pages == s.pages
        && Extends(s.slots, r.value.slots, slot, n)
        && (forall k :: slot <= k < slot + n ==> r.value.slots[k] == Unmapped)
    decreases n
  {
    if n > 0 {
      var t := Retype(s, Unmapped, PAGE_SIZE, slot);
      if t.err == NoError {
        NextPageAligned(s.watermark);
        PagesForm(t.space, slot + 1, n - 1);
      }
    }
  }

  lemma {:induction false} PagesSucceed(s: Space, slot: nat, n: nat)
    requires NoneFrom(s.slots, slot) && Align(s.watermark, PAGE_SIZE) + n * PAGE_SIZE <= BUDGET
    ensures AddPages(s, slot, n).Some?
    decreases n
  {
    if n > 0 {
      NextPageAligned(s.watermark);
      PagesSucceed(Retype(s, Unmapped, PAGE_SIZE, slot).space, slot + 1, n - 1);
    }
  }

  function PutMapping(s: Space, slot: nat, p: nat, rights: Rights): Space {
    s.(slots := s.slots[slot := Page(p)], pages := s.pages[p := Mapping(InSlot(slot), rights)])
  }

  function PutMappings(s: Space, slot: nat, p: nat, n: nat, rights: Rights): Space
    decreases n
  {
    if n == 0 then s else PutMappings(PutMapping(s, slot, p, rights), slot + 1, p + 1, n - 1, rights)
  }

  /** Slot `slot` holds a page capability that may be mapped at page p. */
  ghost predicate Mappable(c: Config, s: Space, slot: nat, p: nat)
    requires c.perTable > 0
  {
    && slot in s.slots && Covered(c, s, p)
    && (s.slots[slot] == Page(p) || (s.slots[slot] == Unmapped && p !in s.pages))
  }

  ghost predicate AllMappable(c: Config, s: Space, slot: nat, p: nat, n: nat)
    requires c.perTable > 0
  {
    forall k: nat, q: nat :: slot <= k < slot + n && q - k == p - slot ==> Mappable(c, s, k, q)
  }

  lemma OneMapping(c: Config, s: Space, slot: nat, p: nat, rights: Rights)
    requires c.perTable > 0 && Mappable(c, s, slot, p)
    ensures MapPage(c, s, slot, PAGE_SIZE * p, rights) == Tried(NoError, PutMapping(s, slot, p, rights))
  {
  }

  lemma RestStaysMappable(c: Config, s: Space, slot: nat, p: nat, n: nat, rights: Rights)
    requires c.perTable > 0 && n > 0 && AllMappable(c, s, slot, p, n)
    ensures AllMappable(c, PutMapping(s, slot, p, rights), slot + 1, p + 1, n - 1)
  {
    var t := PutMapping(s, slot, p, rights);
    forall k: nat, q: nat | slot + 1 <= k < slot + n && q - k == p - slot ensures Mappable(c, t, k, q) {
      assert Mappable(c, s, k, q);
    }
  }

  /** Mapping, protecting or unprotecting pages that may be mapped always succeeds and does
      exactly this. */
  lemma {:induction false} MapAllResult(c: Config, s: Space, slot: nat, p: nat, n: nat, rights: Rights)
    requires c.perTable > 0 && AllMappable(c, s, slot, p, n)
    ensures MapAll(c, s, slot, PAGE_SIZE * p, n, rights) == Some(PutMappings(s, slot, p, n, rights))
    decreases n
  {
    if n > 0 {
      assert Mappable(c, s, slot, p);
      OneMapping(c, s, slot, p, rights);
      RestStaysMappable(c, s, slot, p, n, rights);
      MapAllResult(c, PutMapping(s, slot, p, rights), slot + 1, p + 1, n - 1, rights);
    }
  }

  /** Page p + i is mapped through capability slot + i, with the given rights; nothing else
      has changed. */
  ghost predicate MappedTo(s: Space, t: Space, slot: nat, p: nat, n: nat, rights: Rights) {
    && t.tables == s.tables && t.watermark == s.watermark
    && (forall k :: k in t.slots <==> k in s.slots || slot <= k < slot + n)
    && (forall k :: k in t.slots ==> t.slots[k] == if slot <= k < slot + n then Page(p + (k - slot)) else s.slots[k])
    && (forall q :: q in t.pages <==> q in s.pages || p <= q < p + n)
    && (forall q :: q in t.pages ==>
          t.pages[q] == if p <= q < p + n then Mapping(InSlot(slot + (q - p)), rights) else s.pages[q])
  }

  lemma MappingThenRest(s: Space, u: Space, t: Space, slot: nat, p: nat, n: nat, rights: Rights)
    requires n > 0 && u == PutMapping(s, slot, p, rights) && MappedTo(u, t, slot + 1, p + 1, n - 1, rights)
    ensures MappedTo(s, t, slot, p, n, rights)
  {
    assert forall k :: k in u.slots <==> k in s.slots || k == slot;
    assert forall q :: q in u.pages <==> q in s.pages || q == p;
  }

  lemma {:induction false} MappingsAt(s: Space, slot: nat, p: nat, n: nat, rights: Rights)
    ensures MappedTo(s, PutMappings(s, slot, p, n, rights), slot, p, n, rights)
    decreases n
  {
    if n > 0 {
      var u := PutMapping(s, slot, p, rights);
      MappingsAt(u, slot + 1, p + 1, n - 1, rights);
      MappingThenRest(s, u, PutMappings(s, slot, p, n, rights), slot, p, n, rights);
    }
  }

  lemma MappedIsUnique(s: Space, t: Space, u: Space, slot: nat, p: nat, n: nat, rights: Rights)
    requires MappedTo(s, t, slot, p, n, rights) && MappedTo(s, u, slot, p, n, rights)
    ensures t == u
  {
    assert t.slots == u.slots;
    assert t.pages == u.pages;
  }

  lemma MappedAgain(s: Space, t: Space, u: Space, slot: nat, p: nat, n: nat, first: Rights, second: Rights)
    requires MappedTo(s, t, slot, p, n, first) && MappedTo(t, u, slot, p, n, second)
    ensures MappedTo(s, u, slot, p, n, second)
  {
  }

  /** Mapping again with other rights replaces the rights and nothing else, so protecting and
      then unprotecting gives back the state after mapping. */
  lemma ProtectUnprotectRestores(s: Space, slot: nat, p: nat, n: nat)
    ensures var mapped := PutMappings(s, slot, p, n, AllRights);
      PutMappings(PutMappings(mapped, slot, p, n, CanRead), slot, p, n, AllRights) == mapped
  {
    var t := PutMappings(s, slot, p, n, AllRights);
    var u := PutMappings(t, slot, p, n, CanRead);
    var v := PutMappings(u, slot, p, n, AllRights);
    MappingsAt(s, slot, p, n, AllRights);
    MappingsAt(t, slot, p, n, CanRead);
    MappingsAt(u, slot, p, n, AllRights);
    MappedAgain(s, t, u, slot, p, n, AllRights, CanRead);
    MappedAgain(s, u, v, slot, p, n, CanRead, AllRights);
    MappedIsUnique(s, t, v, slot, p, n, AllRights);
  }

  // ---------------------------------------------------------------------------
  // The whole benchmark process
  // ---------------------------------------------------------------------------

  /** The first slot that receives a page. */
  function PageSlot(c: Config, untyped: nat, npage: nat): nat
    requires c.perTable > 0
  {
    untyped + 1 + Uppers(c) + NumTables(c, npage)
  }

  function AllocatePhases(c: Config, s: Space, untyped: nat, npage: nat): Option<Space>
    requires c.perTable > 0 && c.tableSize > 0
  {
    match TablesPhase(c, s, untyped + 1, StartAddress(c), npage)
    case None => None
    case Some(t) => AddPages(t, PageSlot(c, untyped, npage), npage)
  }

  ghost predicate Allocated(c: Config, s: Space, u: Space, untyped: nat, npage: nat)
    requires c.perTable > 0
  {
    && u.watermark == Needed(c, npage) <= BUDGET
    && u.pages == s.pages
    && Extends(s.slots, u.slots, untyped + 1, Uppers(c) + NumTables(c, npage) + npage)
    && AllMappable(c, u, PageSlot(c, untyped, npage), c.firstPage, npage)
  }

  lemma PagesMappable(c: Config, t: Space, u: Space, slot: nat, npage: nat)
    requires c.perTable > 0 && AllCovered(c, t, npage) && u.tables == t.tables && u.pages == t.pages
    requires forall p :: c.firstPage <= p < c.firstPage + npage ==> p !in t.pages
    requires forall k :: slot <= k < slot + npage ==> k in u.slots && u.slots[k] == Unmapped
    ensures AllMappable(c, u, slot, c.firstPage, npage)
  {
    forall k: nat, q: nat | slot <= k < slot + npage && q - k == c.firstPage - slot ensures Mappable(c, u, k, q) {
      assert Covered(c, t, q);
    }
  }

  lemma PagesAllocated(c: Config, s: Space, t: Space, u: Space, untyped: nat, npage: nat, tables: nat)
    requires c.perTable > 0 && tables == Uppers(c) + NumTables(c, npage)
    requires forall p :: c.firstPage <= p < c.firstPage + npage ==> p !in s.pages
    requires t.watermark == TableBytes(c, tables) <= BUDGET && t.pages == s.pages
    requires Extends(s.slots, t.slots, untyped + 1, tables) && AllCovered(c, t, npage)
    requires AddPages(t, untyped + 1 + tables, npage) == Some(u)
    ensures Allocated(c, s, u, untyped, npage)
  {
    var slot := untyped + 1 + tables;
    PagesForm(t, slot, npage);
    ExtendsTwice(s.slots, t.slots, u.slots, untyped + 1, tables, npage);
    PagesMappable(c, t, u, slot, npage);
  }

  /** If allocation succeeds, every object has got a slot of its own and all fit the untyped. */
  lemma AllocateForm(c: Config, s: Space, untyped: nat, npage: nat)
    requires Valid(c) && Ready(c, s, npage) && NoneFrom(s.slots, untyped + 1)
    ensures var r := AllocatePhases(c, s, untyped, npage);
      r.Some? ==> Allocated(c, s, r.value, untyped, npage)
  {
    TablesForm(c, s, untyped + 1, npage);
    var t := TablesPhase(c, s, untyped + 1, StartAddress(c), npage);
    if t.Some? {
      var u := AddPages(t.value, PageSlot(c, untyped, npage), npage);
      if u.Some? {
        PagesAllocated(c, s, t.value, u.value, untyped, npage, Uppers(c) + NumTables(c, npage));
      }
    }
  }

  lemma AllocateIfFits(c: Config, s: Space, untyped: nat, npage: nat)
    requires Valid(c) && Ready(c, s, npage) && NoneFrom(s.slots, untyped + 1) && Fits(c, npage)
    ensures AllocatePhases(c, s, untyped, npage).Some?
  {
    TablesSucceed(c, s, untyped + 1, npage);
    TablesForm(c, s, untyped + 1, npage);
    var t := TablesPhase(c, s, untyped + 1, StartAddress(c), npage).value;
    if npage > 0 { PagesSucceed(t, PageSlot(c, untyped, npage), npage); }
  }

  /** Allocation succeeds exactly when everything fits the untyped. */
  lemma AllocateSucceeds(c: Config, s: Space, untyped: nat, npage: nat)
    requires Valid(c) && Ready(c, s, npage) && NoneFrom(s.slots, untyped + 1)
    ensures AllocatePhases(c, s, untyped, npage).Some? <==> Fits(c, npage)
  {
    AllocateForm(c, s, untyped, npage);
    if Fits(c, npage) { AllocateIfFits(c, s, untyped, npage); }
  }

  lemma TablesKeep(c: Config, s: Space, slot: nat, npage: nat)
    requires Owned(s) && c.perTable > 0 && c.tableSize > 0
    ensures var r := TablesPhase(c, s, slot, StartAddress(c), npage); r.Some? ==> Keeps(s, r.value)
  {
    AddUppersKeeps(c, s, slot, StartAddress(c));
    var t := AddUppers(c, s, slot, StartAddress(c));
    if t.Some? {
      AddLeavesKeeps(c, t.value, slot + Uppers(c), StartAddress(c), NumTables(c, npage));
    }
  }

  lemma AllocateKeeps(c: Config, s: Space, untyped: nat, npage: nat)
    requires Owned(s) && c.perTable > 0 && c.tableSize > 0
    ensures var r := AllocatePhases(c, s, untyped, npage); r.Some? ==> Keeps(s, r.value)
  {
    TablesKeep(c, s, untyped + 1, npage);
    var t := TablesPhase(c, s, untyped + 1, StartAddress(c), npage);
    if t.Some? { AddPagesKeeps(t.value, PageSlot(c, untyped, npage), npage); }
  }

  lemma StillMappable(c: Config, s: Space, t: Space, slot: nat, p: nat, n: nat, rights: Rights)
    requires c.perTable > 0 && AllMappable(c, s, slot, p, n) && MappedTo(s, t, slot, p, n, rights)
    ensures AllMappable(c, t, slot, p, n)
  {
    forall k: nat, q: nat | slot <= k < slot + n && q - k == p - slot ensures Mappable(c, t, k, q) {
      assert Mappable(c, s, k, q);
    }
  }

  /** All three mapping phases succeed; the last two together change nothing. */
  lemma MapPhases(c: Config, s: Space, slot: nat, npage: nat)
    requires c.perTable > 0 && Owned(s) && AllMappable(c, s, slot, c.firstPage, npage)
    ensures var r := MapAll(c, s, slot, StartAddress(c), npage, AllRights);
      && r.Some? && Keeps(s, r.value)
      && MappedTo(s, r.value, slot, c.firstPage, npage, AllRights)
      && var u := MapAll(c, r.value, slot, StartAddress(c), npage, CanRead);
      && u.Some? && MappedTo(r.value, u.value, slot, c.firstPage, npage, CanRead)
      && MapAll(c, u.value, slot, StartAddress(c), npage, AllRights) == r
  {
    var p := c.firstPage;
    var t := PutMappings(s, slot, p, npage, AllRights);
    var u := PutMappings(t, slot, p, npage, CanRead);
    MapAllResult(c, s, slot, p, npage, AllRights);
    MapAllKeeps(c, s, slot, StartAddress(c), npage, AllRights);
    MappingsAt(s, slot, p, npage, AllRights);
    StillMappable(c, s, t, slot, p, npage, AllRights);
    MapAllResult(c, t, slot, p, npage, CanRead);
    MappingsAt(t, slot, p, npage, CanRead);
    StillMappable(c, t, u, slot, p, npage, CanRead);
    MapAllResult(c, u, slot, p, npage, AllRights);
    ProtectUnprotectRestores(s, slot, p, npage);
  }

  lemma CopyKeepsReady(c: Config, s: Space, slot: nat, npage: nat)
    requires Valid(c) && Ready(c, s, npage) && NoneFrom(s.slots, slot)
    ensures Ready(c, CopyUntyped(s, slot), npage) && NoneFrom(CopyUntyped(s, slot).slots, slot + 1)
    ensures Keeps(s, CopyUntyped(s, slot))
  {
    CopyUntypedKeeps(s, slot);
  }

  // ---------------------------------------------------------------------------
  // Only empty slots are used
  // ---------------------------------------------------------------------------

  ghost predicate FreeIn(slots: map<nat, Cap>, slot: nat, n: nat) {
    forall k :: slot <= k < slot + n ==> k !in slots
  }

  ghost predicate KeepsSlots(s: Space, t: Space) { forall k :: k in s.slots ==> k in t.slots }

  lemma OneMoreFree(s: Space, t: Space, slot: nat, n: nat)
    requires n > 0 && slot !in s.slots && KeepsSlots(s, t) && FreeIn(t.slots, slot + 1, n - 1)
    ensures FreeIn(s.slots, slot, n)
  {
    forall k | slot <= k < slot + n ensures k !in s.slots {
      assert k == slot || k !in t.slots;
    }
  }

  lemma UppersNeedFreeSlots(c: Config, s: Space, slot: nat, addr: nat)
    requires c.perTable > 0 && c.tableSize > 0
    ensures var r := AddUppers(c, s, slot, addr);
      r.Some? ==> FreeIn(s.slots, slot, Uppers(c)) && KeepsSlots(s, r.value)
  {
  }

  lemma {:induction false} LeavesNeedFreeSlots(c: Config, s: Space, slot: nat, addr: nat, n: nat)
    requires c.perTable > 0 && c.tableSize > 0
    ensures var r := AddLeaves(c, s, slot, addr, n);
      r.Some? ==> FreeIn(s.slots, slot, n) && KeepsSlots(s, r.value)
    decreases n
  {
    if n > 0 {
      var r := AddTable(c, s, 0, slot, addr);
      if r.err == NoError {
        assert KeepsSlots(s, r.space);
        LeavesNeedFreeSlots(c, r.space, slot + 1, addr + PAGE_SIZE * c.perTable, n - 1);
        if AddLeaves(c, s, slot, addr, n).Some? { OneMoreFree(s, r.space, slot, n); }
      }
    }
  }

  lemma {:induction false} PagesNeedFreeSlots(s: Space, slot: nat, n: nat)
    ensures AddPages(s, slot, n).Some? ==> FreeIn(s.slots, slot, n)
    decreases n
  {
    if n > 0 {
      var r := Retype(s, Unmapped, PAGE_SIZE, slot);
      PagesNeedFreeSlots(r.space, slot + 1, n - 1);
      if AddPages(s, slot, n).Some? { OneMoreFree(s, r.space, slot, n); }
    }
  }

  lemma TablesNeedFreeSlots(c: Config, s: Space, slot: nat, npage: nat)
    requires c.perTable > 0 && c.tableSize > 0
    ensures var r := TablesPhase(c, s, slot, StartAddress(c), npage);
      r.Some? ==> FreeIn(s.slots, slot, Uppers(c) + NumTables(c, npage)) && KeepsSlots(s, r.value)
  {
    UppersNeedFreeSlots(c, s, slot, StartAddress(c));
    var t := AddUppers(c, s, slot, StartAddress(c));
    if t.Some? {
      LeavesNeedFreeSlots(c, t.value, slot + Uppers(c), StartAddress(c), NumTables(c, npage));
    }
  }

  /** From any state, allocation can only succeed if every slot it uses was empty. */
  lemma AllocationNeedsFreeSlots(c: Config, s: Space, untyped: nat, npage: nat)
    requires c.perTable > 0 && c.tableSize > 0 && AllocatePhases(c, s, untyped, npage).Some?
    ensures FreeIn(s.slots, untyped + 1, Uppers(c) + NumTables(c, npage) + npage)
  {
    TablesNeedFreeSlots(c, s, untyped + 1, npage);
    var u := TablesPhase(c, s, untyped + 1, StartAddress(c), npage).value;
    PagesNeedFreeSlots(u, PageSlot(c, untyped, npage), npage);
  }

  // ---------------------------------------------------------------------------
  // The supported configurations
  // ---------------------------------------------------------------------------

  lemma {:induction false} TableBytesIs(c: Config, count: nat)
    ensures TableBytes(c, count) == count * c.tableSize
    decreases count
  {
    if count > 0 {
      TableBytesIs(c, count - 1);
      assert count * c.tableSize == (count - 1) * c.tableSize + c.tableSize;
    }
  }

  /** 64-bit architectures: 512 entries, three or four levels, start address 2^39 or 0x60000000.
      32-bit ones: two levels, 1024 entries or, on ARM, 256. */
  predicate Supported(c: Config) {
    || (c.perTable == 512 && c.tableSize == 4096 && c.levels in {3, 4}
        && (c.firstPage == 0x800_0000 || c.firstPage == 0x6_0000))
    || (c.perTable in {256, 1024} && c.tableSize == 4 * c.perTable && c.levels == 2 && c.firstPage == 0x6_0000)
  }

  lemma SupportedIsValid(c: Config)
    requires Supported(c)
    ensures Valid(c)
  {
    if c.perTable == 512 {
      var base := if c.firstPage == 0x6_0000 then 768 else 0x4_0000;
      QuotientIs(c.firstPage, 512, base, 0);
      QuotientIs(base, 512, if base == 768 then 1 else 512, if base == 768 then 256 else 0);
      QuotientIs(4607, 512, 8, 511);
    } else {
      QuotientIs(c.firstPage, c.perTable, if c.perTable == 256 then 1536 else 384, 0);
    }
  }

  lemma FewTables(c: Config, npage: nat)
    requires Supported(c) && npage in {1, 512, 2048}
    ensures NumTables(c, npage) <= 8
  {
    if npage == 1 {
      QuotientIs(c.perTable, c.perTable, 1, 0);
    } else if c.perTable == 1024 && npage == 512 {
      QuotientIs(1535, 1024, 1, 511);
    } else {
      var q := if c.perTable == 256 then (if npage == 512 then 2 else 8)
               else if c.perTable == 512 then (if npage == 512 then 1 else 4) else 2;
      QuotientIs(npage + c.perTable - 1, c.perTable, q, c.perTable - 1);
    }
  }

  /** On every supported configuration the budget is enough for each entry of the benchmark
      table, with 2048 pages the largest. */
  lemma TableFits(c: Config, npage: nat)
    requires Supported(c) && npage in {1, 512, 2048}
    ensures Fits(c, npage)
  {
    FewTables(c, npage);
    MoreBytes(c, Uppers(c) + NumTables(c, npage), 10);
    TableBytesIs(c, 10);
  }

  // ---------------------------------------------------------------------------
  // The benchmark process and its driver
  // ---------------------------------------------------------------------------

  class Process {
    const config: Config
    var space: Space
    var nextFree: nat

    constructor (config: Config, space: Space, nextFree: nat)
      ensures this.config == config && this.space == space && this.nextFree == nextFree
    {
      this.config, this.space, this.nextFree := config, space, nextFree;
    }

    method RetypeAndMap(level: nat, slot: nat, addr: nat) returns (err: Error)
      requires config.perTable > 0 && config.tableSize > 0
      modifies this`space
      ensures Tried(err, space) == AddTable(config, old(space), level, slot, addr)
    {
      AddTableIsTwoCalls(config, space, level, slot, addr);
      var r := Retype(space, Table(level, false), config.tableSize, slot);
      if r.err == NoError {
        r := MapTable(config, r.space, level, slot, addr);
      }
      err, space := r.err, r.space;
    }

    method PrepareUpperTables(addr: nat, freeSlot: nat) returns (ok: bool, ptSlot: nat)
      requires config.perTable > 0 && config.tableSize > 0
      modifies this`space
      ensures ok ==> ptSlot == freeSlot + Uppers(config)
      ensures (if ok then Some(space) else None) == AddUppers(config, old(space), freeSlot, addr)
    {
      ok, ptSlot := false, freeSlot;
      if config.levels == 4 {
        AddTableIsTwoCalls(config, space, 2, ptSlot, addr);
        var r := Retype(space, Table(2, false), config.tableSize, ptSlot);
        space := r.space;
        if r.err != NoError { return; }
        r := MapTable(config, space, 2, ptSlot, addr);
        space := r.space;
        if r.err != NoError && r.err != DeleteFirst { return; }
        ptSlot := ptSlot + 1;
      }
      if config.levels >= 3 {
        var err := RetypeAndMap(1, ptSlot, addr);
        if err != NoError { return; }
        ptSlot := ptSlot + 1;
      }
      ok := true;
    }

    method PrepareLeafTables(start: nat, n: nat, freeSlot: nat) returns (ok: bool, ptSlot: nat)
      requires config.perTable > 0 && config.tableSize > 0
      modifies this`space
      ensures ok ==> ptSlot == freeSlot + n
      ensures (if ok then Some(space) else None) == AddLeaves(config, old(space), freeSlot, start, n)
    {
      var addr: nat := start;
      ok, ptSlot := false, freeSlot;
      for i := 0 to n
        invariant ptSlot == freeSlot + i
        invariant AddLeaves(config, space, ptSlot, addr, n - i) == AddLeaves(config, old(space), freeSlot, start, n)
      {
        var err := RetypeAndMap(0, ptSlot, addr);
        if err != NoError { return; }
        ptSlot := ptSlot + 1;
        addr := addr + PAGE_SIZE * config.perTable;
      }
      ok := true;
    }

    /** Each phase stops at the first failing call, as the assertions after the calls do. */
    method PreparePageTable(start: nat, npage: nat, freeSlot: nat) returns (ok: bool, ptSlot: nat)
      requires config.perTable > 0 && config.tableSize > 0
      modifies this`space
      ensures ok ==> ptSlot == freeSlot + Uppers(config) + NumTables(config, npage)
      ensures (if ok then Some(space) else None) == TablesPhase(config, old(space), freeSlot, start, npage)
    {
      ok, ptSlot := PrepareUpperTables(start, freeSlot);
      if ok {
        ok, ptSlot := PrepareLeafTables(start, NumTables(config, npage), ptSlot);
      }
    }

    method PreparePages(npage: nat, freeSlot: nat) returns (ok: bool, slot: nat)
      modifies this`space
      ensures ok ==> slot == freeSlot + npage
      ensures (if ok then Some(space) else None) == AddPages(old(space), freeSlot, npage)
    {
      ok, slot := false, freeSlot;
      for i := 0 to npage
        invariant slot == freeSlot + i
        invariant AddPages(space, slot, npage - i) == AddPages(old(space), freeSlot, npage)
      {
        var r := Retype(space, Unmapped, PAGE_SIZE, slot);
        space := r.space;
        if r.err != NoError { return; }
        slot := slot + 1;
      }
      ok := true;
    }

    /** Mapping, protecting and unprotecting differ in the rights only. */
    method MapPages(start: nat, firstCap: nat, npage: nat, rights: Rights) returns (ok: bool)
      requires config.perTable > 0
      modifies this`space
      ensures (if ok then Some(space) else None) == MapAll(config, old(space), firstCap, start, npage, rights)
    {
      var addr: nat, pageCap: nat := start, firstCap;
      ok := false;
      for i := 0 to npage
        invariant MapAll(config, space, pageCap, addr, npage - i, rights)
               == MapAll(config, old(space), firstCap, start, npage, rights)
      {
        var r := MapPage(config, space, pageCap, addr, rights);
        space := r.space;
        if r.err != NoError { return; }
        addr := addr + PAGE_SIZE;
        pageCap := pageCap + 1;
      }
      ok := true;
    }

    /** The child process: allocate, map, protect, unprotect. Started with an unused untyped
        and free slots behind it, it succeeds exactly when everything fits the untyped; then
        page i is mapped through the i-th page capability with all rights, which is the state
        after the mapping phase already; in between, every page was read-only. */
    method BenchProc(untyped: nat, npage: nat)
      returns (ok: bool, ghost prepared: Space, ghost mapped: Space, ghost guarded: Space)
      requires Valid(config) && Ready(config, space, npage) && NoneFrom(space.slots, untyped + 1)
      modifies this`space
      ensures ok <==> Fits(config, npage)
      ensures ok ==> Allocated(config, old(space), prepared, untyped, npage)
      ensures ok ==> MappedTo(prepared, mapped, PageSlot(config, untyped, npage), config.firstPage, npage, AllRights)
      ensures ok ==> MappedTo(mapped, guarded, PageSlot(config, untyped, npage), config.firstPage, npage, CanRead)
      ensures ok ==> space == mapped && Keeps(old(space), space)
    {
      var freeSlot := untyped + 1;
      var addr := StartAddress(config);
      prepared, mapped, guarded := space, space, space;
      AllocateForm(config, space, untyped, npage);
      AllocateSucceeds(config, space, untyped, npage);
      AllocateKeeps(config, space, untyped, npage);
      ok, freeSlot := PreparePageTable(addr, npage, freeSlot);
      if !ok { return; }
      var firstCap := freeSlot;
      ok, freeSlot := PreparePages(npage, freeSlot);
      if !ok { return; }
      prepared := space;
      MapPhases(config, space, firstCap, npage);
      ok := MapPages(addr, firstCap, npage, AllRights);
      mapped := space;
      ok := MapPages(addr, firstCap, npage, CanRead);
      guarded := space;
      ok := MapPages(addr, firstCap, npage, AllRights);
    }

    /** One round of the driver: copy the untyped into the next free slot, run the process,
        revoke, step the free slot back. Only the measurement is left of it. */
    method Round(npage: nat) returns (ok: bool, start: (nat, Space))
      requires Valid(config) && NoneFrom(space.slots, nextFree) && OnlyOutside(space)
      requires Ready(config, space, npage)
      modifies this
      ensures start.0 == old(nextFree) && StartsFresh(old(space), start.1, old(nextFree))
      ensures ok <==> Fits(config, npage)
      ensures ok ==> space == old(space) && nextFree == old(nextFree)
    {
      var untyped := nextFree;
      CopyKeepsReady(config, space, untyped, npage);
      OutsideSurvives(space);
      space := CopyUntyped(space, untyped);
      nextFree := nextFree + 1;
      start := (untyped, space);
      ghost var prepared, mapped, guarded;
      ok, prepared, mapped, guarded := BenchProc(untyped, npage);
      if ok {
        space := Revoke(space);
        nextFree := nextFree - 1;
      }
    }

    /** All rounds: each starts from the same state with the untyped in the same slot. */
    method RunLoop(runs: nat, tests: seq<nat>) returns (ok: bool, starts: seq<(nat, Space)>)
      requires Valid(config) && NoneFrom(space.slots, nextFree) && OnlyOutside(space)
      requires forall j :: 0 <= j < |tests| ==> Ready(config, space, tests[j])
      modifies this
      ensures ok <==> runs == 0 || forall j :: 0 <= j < |tests| ==> Fits(config, tests[j])
      ensures forall k :: 0 <= k < |starts| ==>
        starts[k].0 == old(nextFree) && StartsFresh(old(space), starts[k].1, old(nextFree))
      ensures ok ==> |starts| == runs * |tests| && space == old(space) && nextFree == old(nextFree)
    {
      starts, ok := [], true;
      for i := 0 to runs
        invariant i > 0 ==> forall j :: 0 <= j < |tests| ==> Fits(config, tests[j])
        invariant forall k :: 0 <= k < |starts| ==>
          starts[k].0 == old(nextFree) && StartsFresh(old(space), starts[k].1, old(nextFree))
        invariant |starts| == i * |tests| && space == old(space) && nextFree == old(nextFree)
      {
        for j := 0 to |tests|
          invariant forall k :: 0 <= k < j ==> Fits(config, tests[k])
          invariant forall k :: 0 <= k < |starts| ==>
          starts[k].0 == old(nextFree) && StartsFresh(old(space), starts[k].1, old(nextFree))
          invariant |starts| == i * |tests| + j && space == old(space) && nextFree == old(nextFree)
        {
          var start;
          ok, start := Round(tests[j]);
          starts := starts + [start];
          if !ok { return; }
        }
        assert (i + 1) * |tests| == i * |tests| + |tests|;
      }
    }
  }
}
