/** The store keeps its own copies: rows go in and come out by cloning (pkg/store/memory/memory.go),
    so nobody outside can change a stored row through a pointer or a slice. A row is a struct with
    plain fields, slices and pointers; this module treats every such struct alike, and Copies.dfy
    shows that the six tables of the store are instances. */
module Aliasing {
  import opened Identity
  import opened Database
  import Paging

  /** What a slice or a pointer leads to. */
  datatype Content = Strings(strings: seq<string>) | Grants(grants: seq<GrantType>) | At(time: Time)

  /** The memory behind a slice or a pointer. */
  class Cell {
    var content: Content

    constructor (content: Content)
      ensures this.content == content
    {
      this.content := content;
    }
  }

  /** A nil slice or pointer leads nowhere. */
  ghost function Seen(c: Cell?): Option<Content>
    reads c
  {
    if c == null then None else Some(c.content)
  }

  /** A row as a value: its plain fields, and what each of its slices and pointers leads to. */
  datatype Image<H> = Image(head: H, contents: seq<Option<Content>>)

  /** A row in memory. The plain fields are those of head. */
  class RowObject<H> {
    var head: H
    var cells: seq<Cell?>

    constructor (head: H, cells: seq<Cell?>)
      ensures this.head == head && this.cells == cells
    {
      this.head, this.cells := head, cells;
    }

    /** The row shows this value. */
    ghost predicate Shows(image: Image<H>)
      reads this, cells
    {
      && head == image.head && |cells| == |image.contents|
      && forall i :: 0 <= i < |cells| ==> Seen(cells[i]) == image.contents[i]
    }

    /** All memory of the row lies in the given set. */
    ghost predicate Within(s: set<object>)
      reads this
    {
      this in s && forall i :: 0 <= i < |cells| && cells[i] != null ==> cells[i] in s
    }

    /** The row and the given set have no memory in common. */
    ghost predicate Outside(s: set<object>)
      reads this
    {
      this !in s && forall i :: 0 <= i < |cells| && cells[i] != null ==> cells[i] !in s
    }

    /** The clone functions: the struct, and the memory behind each slice and pointer, are copied. */
    method Clone(ghost image: Image<H>) returns (c: RowObject<H>)
      requires Shows(image)
      ensures fresh(c) && c.Shows(image)
      ensures forall i :: 0 <= i < |c.cells| && c.cells[i] != null ==> fresh(c.cells[i])
    {
      var copies: seq<Cell?> := [];
      for i := 0 to |cells|
        invariant |copies| == i
        invariant forall j :: 0 <= j < i && copies[j] != null ==> fresh(copies[j])
        invariant forall j :: 0 <= j < i ==> Seen(copies[j]) == image.contents[j]
      {
        var copied: Cell? := null;
        if cells[i] != null {
          copied := new Cell(cells[i].content);
        }
        copies := copies + [copied];
      }
      c := new RowObject(head, copies);
    }

    /** One of the pointers leads to a new cell from now on. */
    method Point(ghost image: Image<H>, i: nat, content: Content) returns (cell: Cell)
      requires Shows(image) && i < |cells|
      modifies this`cells
      ensures fresh(cell) && cells == old(cells)[i := cell]
      ensures Shows(Image(image.head, image.contents[i := Some(content)]))
    {
      cell := new Cell(content);
      cells := cells[i := cell];
    }
  }

  // ---------- What the operations do to the values ----------

  ghost predicate Clashes<Id, H>(m: map<Id, Image<H>>, head: H, clash: (H, H) -> bool, except: Option<Id>) {
    exists k :: k in m && Some(k) != except && clash(m[k].head, head)
  }

  /** Create: the row is added unless its id or a unique field is taken. */
  ghost function Created<Id, H>(m: map<Id, Image<H>>, id: Id, image: Image<H>, clash: (H, H) -> bool)
    : (map<Id, Image<H>>, Option<StoreError>)
  {
    if id in m || Clashes(m, image.head, clash, None) then (m, Some(Duplicate)) else (m[id := image], None)
  }

  /** Update: the row is replaced unless it is missing or a unique field is taken by another row. */
  ghost function Updated<Id, H>(m: map<Id, Image<H>>, id: Id, image: Image<H>, clash: (H, H) -> bool)
    : (map<Id, Image<H>>, Option<StoreError>)
  {
    if id !in m then (m, Some(NotFound))
    else if Clashes(m, image.head, clash, Some(id)) then (m, Some(Duplicate))
    else (m[id := image], None)
  }

  // ---------- A table of rows in memory ----------

  class Table<Id(==), H(==,!new)> {
    const idOf: H -> Id
    const clash: (H, H) -> bool
    var rows: map<Id, RowObject<H>>
    ghost var Contents: map<Id, Image<H>>
    ghost var Repr: set<object>

    /** The rows show the contents, and all their memory belongs to the table. */
    ghost predicate Valid()
      reads this, Repr
    {
      && this !in Repr && rows.Keys == Contents.Keys
      && (forall k :: k in rows ==> rows[k] in Repr && rows[k].Within(Repr))
      && (forall k :: k in rows ==> idOf(rows[k].head) == k && rows[k].Shows(Contents[k]))
    }

    constructor (idOf: H -> Id, clash: (H, H) -> bool)
      ensures Valid() && Contents == map[] && Repr == {} && this.idOf == idOf && this.clash == clash
    {
      this.idOf, this.clash := idOf, clash;
      rows, Contents, Repr := map[], map[], {};
    }

    /** A lookup by id; the caller gets a copy. */
    method Get(id: Id) returns (c: RowObject?<H>)
      requires Valid()
      ensures c == null <==> id !in Contents
      ensures c != null ==> c.Shows(Contents[id]) && Copy(c)
    {
      if id !in rows {
        return null;
      }
      c := rows[id].Clone(Contents[id]);
    }

    /** Everything in the row is new memory, so none of it belongs to anybody else. */
    twostate predicate Copy(new c: RowObject<H>)
      reads c
    {
      fresh(c) && forall i :: 0 <= i < |c.cells| && c.cells[i] != null ==> fresh(c.cells[i])
    }

    /** A scan for a row with a given property; the caller gets a copy. */
    method Find(wanted: H -> bool) returns (c: RowObject?<H>)
      requires Valid()
      ensures c == null ==> forall k :: k in Contents ==> !wanted(Contents[k].head)
      ensures c != null ==>
                && wanted(c.head) && idOf(c.head) in Contents && c.Shows(Contents[idOf(c.head)]) && Copy(c)
    {
      var rest := rows.Keys;
      while rest != {}
        invariant rest <= rows.Keys
        invariant forall k :: k in rows && k !in rest ==> !wanted(Contents[k].head)
        decreases |rest|
      {
        var k :| k in rest;
        if wanted(rows[k].head) {
          c := rows[k].Clone(Contents[k]);
          return;
        }
        rest := rest - {k};
      }
      c := null;
    }

    method HasClash(head: H, except: Option<Id>) returns (found: bool)
      requires Valid()
      ensures found == Clashes(Contents, head, clash, except)
    {
      var rest := rows.Keys;
      while rest != {}
        invariant rest <= rows.Keys
        invariant forall k :: k in rows && k !in rest ==> Some(k) == except || !clash(Contents[k].head, head)
        decreases |rest|
      {
        var k :| k in rest;
        if Some(k) != except && clash(rows[k].head, head) {
          return true;
        }
        rest := rest - {k};
      }
      return false;
    }

    /** A new row object takes its place, with all its memory. */
    method Keep(mine: RowObject<H>, ghost image: Image<H>)
      requires Valid() && mine.Shows(image) && mine.Outside(Repr + {this})
      modifies this`rows, this`Contents, this`Repr
      ensures Valid() && Contents == old(Contents)[idOf(image.head) := image]
      ensures Repr == old(Repr) + {mine} + set i | 0 <= i < |mine.cells| && mine.cells[i] != null :: mine.cells[i]
    {
      Repr := Repr + {mine} + set i | 0 <= i < |mine.cells| && mine.cells[i] != null :: mine.cells[i];
      rows := rows[idOf(mine.head) := mine];
      Contents := Contents[idOf(mine.head) := image];
    }

    /** The table keeps a copy of what it is given. */
    method Create(c: RowObject<H>, ghost image: Image<H>) returns (error: Option<StoreError>)
      requires Valid() && c.Shows(image)
      modifies this`rows, this`Contents, this`Repr
      ensures Valid() && fresh(Repr - old(Repr))
      ensures (Contents, error) == Created(old(Contents), idOf(image.head), image, clash)
    {
      var taken := HasClash(c.head, None);
      if idOf(c.head) in rows || taken {
        return Some(Duplicate);
      }
      var mine := c.Clone(image);
      Keep(mine, image);
      return None;
    }

    method Update(c: RowObject<H>, ghost image: Image<H>) returns (error: Option<StoreError>)
      requires Valid() && c.Shows(image)
      modifies this`rows, this`Contents, this`Repr
      ensures Valid() && fresh(Repr - old(Repr))
      ensures (Contents, error) == Updated(old(Contents), idOf(image.head), image, clash)
    {
      if idOf(c.head) !in rows {
        return Some(NotFound);
      }
      var taken := HasClash(c.head, Some(idOf(c.head)));
      if taken {
        return Some(Duplicate);
      }
      var mine := c.Clone(image);
      Keep(mine, image);
      return None;
    }

    /** The rows of the page show the stored values of these plain fields, in this order. */
    ghost predicate ShowsRows(page: seq<RowObject<H>>, heads: seq<H>)
      reads this, page, set i, j | 0 <= i < |page| && 0 <= j < |page[i].cells| :: page[i].cells[j]
    {
      && |page| == |heads|
      && forall i :: 0 <= i < |page| ==>
           page[i].head == heads[i] && idOf(heads[i]) in Contents && page[i].Shows(Contents[idOf(heads[i])])
    }

    /** The matching rows are collected and paged as they are, and then the page is cloned. */
    method List(wanted: H -> bool, keyOf: H -> Paging.Key, opts: Paging.ListOptions)
      returns (page: seq<RowObject<H>>, total: nat)
      requires Valid()
      ensures exists heads: seq<H> ::
                && EachOnce(heads, wanted) && total == |heads|
                && ShowsRows(page, Paging.PageOf(heads, keyOf, opts))
      ensures forall i :: 0 <= i < |page| ==> Copy(page[i])
    {
      var items := Collect(wanted);
      var shown: seq<H>;
      shown, total := Paging.Page(items, keyOf, opts);
      PageShowsItems(items, keyOf, opts);
      page := CloneAll(shown);
      assert EachOnce(items, wanted) && ShowsRows(page, Paging.PageOf(items, keyOf, opts));
    }

    method CloneAll(shown: seq<H>) returns (page: seq<RowObject<H>>)
      requires Valid() && forall h :: h in shown ==> idOf(h) in Contents && Contents[idOf(h)].head == h
      ensures |page| == |shown|
      ensures forall i :: 0 <= i < |page| ==>
                page[i].head == shown[i] && page[i].Shows(Contents[idOf(shown[i])]) && Copy(page[i])
    {
      page := [];
      for i := 0 to |shown|
        invariant |page| == i
        invariant forall j :: 0 <= j < i ==>
                    page[j].head == shown[j] && page[j].Shows(Contents[idOf(shown[j])]) && Copy(page[j])
      {
        var c := rows[idOf(shown[i])].Clone(Contents[idOf(shown[i])]);
        page := page + [c];
      }
    }

    /** The rows with the property, each once. */
    ghost predicate EachOnce(heads: seq<H>, wanted: H -> bool)
      reads this
    {
      && (forall h :: h in heads <==> idOf(h) in Contents && Contents[idOf(h)].head == h && wanted(h))
      && (forall i, j :: 0 <= i < j < |heads| ==> idOf(heads[i]) != idOf(heads[j]))
    }

    method Collect(wanted: H -> bool) returns (heads: seq<H>)
      requires Valid()
      ensures EachOnce(heads, wanted)
    {
      heads := [];
      var rest := rows.Keys;
      while rest != {}
        invariant rest <= rows.Keys
        invariant forall h :: h in heads ==>
                    idOf(h) in rows && idOf(h) !in rest && Contents[idOf(h)].head == h && wanted(h)
        invariant forall k :: k in rows && k !in rest && wanted(Contents[k].head) ==> Contents[k].head in heads
        invariant forall i, j :: 0 <= i < j < |heads| ==> idOf(heads[i]) != idOf(heads[j])
        decreases |rest|
      {
        var k :| k in rest;
        if wanted(rows[k].head) {
          heads := heads + [rows[k].head];
        }
        rest := rest - {k};
      }
    }

    /** A stored row is changed in place: one of its pointers now leads to a new cell. */
    method SetPointer(id: Id, i: nat, content: Content)
      requires Valid() && id in Contents && i < |Contents[id].contents|
      modifies this`Contents, this`Repr, Repr
      ensures Valid() && fresh(Repr - old(Repr))
      ensures Contents == old(Contents)[id := Image(old(Contents)[id].head,
                                                    old(Contents)[id].contents[i := Some(content)])]
    {
      var c := rows[id];
      ghost var image := Image(Contents[id].head, Contents[id].contents[i := Some(content)]);
      assert forall k :: k in rows && k != id ==> rows[k] != c;
      var cell := c.Point(Contents[id], i, content);
      Repr := Repr + {cell};
      Contents := Contents[id := image];
      forall k | k in rows
        ensures rows[k] in Repr && rows[k].Within(Repr) && idOf(rows[k].head) == k && rows[k].Shows(Contents[k])
      {
        if k != id {
          assert old(rows[k].Within(Repr) && rows[k].Shows(Contents[k]));
        }
      }
    }
  }

  lemma PageShowsItems<H>(items: seq<H>, keyOf: H -> Paging.Key, opts: Paging.ListOptions)
    ensures forall h :: h in Paging.PageOf(items, keyOf, opts) ==> h in items
  {
    var sorted := Paging.Sorted(items, keyOf);
    forall h | h in Paging.PageOf(items, keyOf, opts) ensures h in items {
      assert h in sorted;
      assert h in multiset(sorted) && multiset(sorted) == multiset(items);
    }
  }

  // ---------- Nobody can reach in ----------

  /** What a caller may do to a row that it holds: change every field, and everything that its
      slices and pointers lead to. */
  method Scribble<H>(c: RowObject<H>, head: H, content: Content)
    modifies c, c.cells
    ensures c.head == head && c.cells == old(c.cells)
    ensures forall i :: 0 <= i < |c.cells| && c.cells[i] != null ==> c.cells[i].content == content
  {
    c.head := head;
    var cells := c.cells;
    for i := 0 to |cells|
      invariant c.cells == cells && c.head == head
      invariant forall j :: 0 <= j < i && cells[j] != null ==> cells[j].content == content
    {
      if cells[i] != null {
        cells[i].content := content;
      }
    }
  }

  /** Changing a row that came out of the table does not change the table. */
  method ChangesToAResultStayOutside<Id(==), H(==,!new)>(table: Table<Id, H>, wanted: H -> bool, head: H,
      content: Content)
    requires table.Valid()
    ensures table.Valid() && table.Contents == old(table.Contents)
  {
    var c := table.Find(wanted);
    if c != null {
      Scribble(c, head, content);
    }
  }

  /** Nor does changing all the rows of a page. */
  method ChangesToAPageStayOutside<Id(==), H(==,!new)>(table: Table<Id, H>, wanted: H -> bool, keyOf: H -> Paging.Key,
      opts: Paging.ListOptions, head: H, content: Content)
    requires table.Valid()
    ensures table.Valid() && table.Contents == old(table.Contents)
  {
    var page, total := table.List(wanted, keyOf, opts);
    for i := 0 to |page|
      invariant table.Valid() && table.Contents == old(table.Contents) && table.Repr == old(table.Repr)
      invariant forall j :: 0 <= j < |page| ==> fresh(page[j])
      invariant forall j, m :: 0 <= j < |page| && 0 <= m < |page[j].cells| && page[j].cells[m] != null ==>
                  fresh(page[j].cells[m])
    {
      Scribble(page[i], head, content);
    }
  }

  /** Nor does changing an argument after the table has taken it. */
  method ChangesToAnArgumentStayOutside<Id(==), H(==,!new)>(table: Table<Id, H>, c: RowObject<H>, ghost image: Image<H>,
      head: H, content: Content) returns (error: Option<StoreError>)
    requires table.Valid() && c.Shows(image) && c.Outside(table.Repr + {table})
    modifies table, c, c.cells
    ensures table.Valid()
    ensures (table.Contents, error) == Created(old(table.Contents), table.idOf(image.head), image, table.clash)
  {
    error := table.Create(c, image);
    Scribble(c, head, content);
  }

  /** A new target for one of the pointers of a row, or nil. */
  datatype Redirect = Stay | PointTo(index: nat, target: Option<Content>)

  /** The value after an edit of the plain fields and of one pointer. */
  function Edited<H>(image: Image<H>, edit: H -> H, redirect: H -> Redirect): Image<H> {
    var r := redirect(image.head);
    Image(edit(image.head),
          if r.PointTo? && r.index < |image.contents| then image.contents[r.index := r.target] else image.contents)
  }

  /** What requests do to a row that they looked up: fields are assigned one by one, in the object itself. */
  method Edit<H(!new)>(c: RowObject<H>, ghost image: Image<H>, edit: H -> H, redirect: H -> Redirect)
    requires c.Shows(image)
    modifies c
    ensures c.Shows(Edited(image, edit, redirect))
  {
    var r := redirect(c.head);
    c.head := edit(c.head);
    if r.PointTo? && r.index < |c.cells| {
      var cell: Cell? := null;
      if r.target.Some? {
        cell := new Cell(r.target.value);
      }
      c.cells := c.cells[r.index := cell];
    }
  }

  /** The pattern of the requests: look a row up, change the copy in place, and save it. The table
      changes with the save and not before. */
  method EditAndSave<Id(==), H(==,!new)>(table: Table<Id, H>, wanted: H -> bool, edit: H -> H, redirect: H -> Redirect)
    returns (error: Option<StoreError>, ghost id: Option<Id>)
    requires table.Valid() && forall h :: table.idOf(edit(h)) == table.idOf(h)
    modifies table
    ensures table.Valid()
    ensures id.None? ==> error == Some(NotFound) && table.Contents == old(table.Contents)
                         && forall k :: k in table.Contents ==> !wanted(table.Contents[k].head)
    ensures id.Some? ==>
              && id.value in old(table.Contents) && wanted(old(table.Contents)[id.value].head)
              && (table.Contents, error)
                 == Updated(old(table.Contents), id.value, Edited(old(table.Contents)[id.value], edit, redirect),
                            table.clash)
  {
    var c := table.Find(wanted);
    if c == null {
      return Some(NotFound), None;
    }
    id := Some(table.idOf(c.head));
    ghost var image := table.Contents[id.value];
    Edit(c, image, edit, redirect);
    assert table.Valid() && table.Contents == old(table.Contents);
    error := table.Update(c, Edited(image, edit, redirect));
  }
}
