/** A directory's cached listing and the patches handlers make to it: upsertNode, removeNode, moveLink. */
module Listings {
  import opened Wrappers

  type LinkId = nat
  type Name = string

  /** One child of a directory; revision stands for everything else a node carries. */
  datatype Entry = Entry(link: LinkId, name: Name, revision: nat)

  type Listing = seq<Entry>

  predicate Matches(e: Entry, n: Entry) {
    e.link == n.link || e.name == n.name
  }

  /** The listing with the first entry that has n's link or n's name replaced by n, or n appended. */
  function Upsert(l: Listing, n: Entry): Listing {
    if l == [] then [n]
    else if Matches(l[0], n) then [n] + l[1..]
    else [l[0]] + Upsert(l[1..], n)
  }

  /** The listing without its first entry named name. */
  function Remove(l: Listing, name: Name): Listing {
    if l == [] then []
    else if l[0].name == name then l[1..]
    else [l[0]] + Remove(l[1..], name)
  }

  lemma UpsertPasses(l: Listing, n: Entry, i: nat)
    requires i < |l|
    ensures l[..i] + Upsert(l[i..], n) == if Matches(l[i], n) then l[i := n] else l[..i + 1] + Upsert(l[i + 1..], n)
  {
    assert l[i..][1..] == l[i + 1..];
    assert l[..i] + [l[i]] == l[..i + 1];
  }

  /** upsertNode: a copy with one slot overwritten, or one more at its end. */
  method UpsertNode(children: Listing, n: Entry) returns (out: Listing)
    ensures out == Upsert(children, n)
  {
    out := children;
    var i := 0;
    while i < |out|
      invariant 0 <= i <= |out|
      invariant out == children
      invariant Upsert(children, n) == children[..i] + Upsert(children[i..], n)
    {
      UpsertPasses(children, n, i);
      if Matches(out[i], n) {
        out := out[i := n];
        return;
      }
      i := i + 1;
    }
    out := out + [n];
  }

  /** removeNode: the entry dropped, if any, and the listing without it. */
  method RemoveNode(children: Listing, name: Name) returns (removed: Option<Entry>, out: Listing)
    ensures out == Remove(children, name)
    ensures removed.Some? ==> removed.value in children && removed.value.name == name && |out| == |children| - 1
    ensures removed.None? <==> forall e <- children :: e.name != name
  {
    var i := 0;
    while i < |children|
      invariant 0 <= i <= |children|
      invariant forall j :: 0 <= j < i ==> children[j].name != name
      invariant Remove(children, name) == children[..i] + Remove(children[i..], name)
    {
      if children[i].name == name {
        assert children[i..][1..] == children[i + 1..];
        return Some(children[i]), children[..i] + children[i + 1..];
      }
      assert children[i..][1..] == children[i + 1..];
      assert children[..i] + [children[i]] == children[..i + 1];
      i := i + 1;
    }
    return None, children;
  }

  // ----- well-formed listings -----

  /** No two entries share a name, and no two share a link. */
  ghost predicate Distinct(l: Listing) {
    forall i, j :: 0 <= i < j < |l| ==> l[i].name != l[j].name && l[i].link != l[j].link
  }

  /** The index Upsert writes to: the first match, or the end. */
  function Slot(l: Listing, n: Entry): (k: nat)
    ensures k <= |l|
    ensures k < |l| ==> Matches(l[k], n)
    ensures forall i :: 0 <= i < k ==> !Matches(l[i], n)
  {
    if l == [] || Matches(l[0], n) then 0 else 1 + Slot(l[1..], n)
  }

  lemma {:induction false} UpsertWritesSlot(l: Listing, n: Entry)
    ensures var k := Slot(l, n);
      Upsert(l, n) == if k < |l| then l[k := n] else l + [n]
  {
    if l != [] && !Matches(l[0], n) {
      var rest, k := l[1..], Slot(l[1..], n);
      UpsertWritesSlot(rest, n);
      assert l == [l[0]] + rest;
      if k < |rest| {
        assert [l[0]] + rest[k := n] == l[k + 1 := n];
      }
    }
  }

  /** Two different entries stand in n's way: one has its link, the other its name. */
  ghost predicate Clash(l: Listing, n: Entry) {
    exists i, j :: 0 <= i < |l| && 0 <= j < |l| && i != j && l[i].link == n.link && l[j].name == n.name
  }

  /** Without a clash, nothing but the slot an upsert writes to matches. */
  lemma OnlyOneMatch(l: Listing, n: Entry, k: nat, other: nat)
    requires Distinct(l) && !Clash(l, n)
    requires k == Slot(l, n) && other < |l| && other != k
    ensures !Matches(l[other], n)
  {
    if k < |l| {
      assert Matches(l[k], n);
      assert l[k].link == n.link ==> l[other].name != n.name && l[other].link != n.link;
    }
  }

  /** An upsert keeps a listing free of duplicate names and links exactly when no two entries clash with it. */
  lemma UpsertKeepsDistinctIff(l: Listing, n: Entry)
    requires Distinct(l)
    ensures Distinct(Upsert(l, n)) <==> !Clash(l, n)
  {
    UpsertWritesSlot(l, n);
    var k := Slot(l, n);
    var u := Upsert(l, n);
    if Clash(l, n) {
      var i, j :| 0 <= i < |l| && 0 <= j < |l| && i != j && l[i].link == n.link && l[j].name == n.name;
      assert Matches(l[i], n) && Matches(l[j], n);
      var other := if k == i then j else i;
      assert u[k] == n && u[other] == l[other];
    } else {
      forall i, j | 0 <= i < j < |u| ensures u[i].name != u[j].name && u[i].link != u[j].link {
        if i == k || j == k {
          var other := if i == k then j else i;
          assert other < |l| && u[other] == l[other];
          assert !Matches(l[other], n) by {
            OnlyOneMatch(l, n, k, other);
          }
        }
      }
    }
  }

  /** Every entry that has neither n's link nor n's name stays, n is there, and nothing else comes in. */
  lemma UpsertContents(l: Listing, n: Entry, e: Entry)
    ensures n in Upsert(l, n)
    ensures e in l && !Matches(e, n) ==> e in Upsert(l, n)
    ensures e in Upsert(l, n) ==> e == n || e in l
  {
    UpsertWritesSlot(l, n);
    var k := Slot(l, n);
    var u := Upsert(l, n);
    assert u[k] == n;
    if e in l && !Matches(e, n) {
      var i :| 0 <= i < |l| && l[i] == e;
      assert i != k && u[i] == e;
    }
  }

  lemma {:induction false} RemoveContents(l: Listing, name: Name, e: Entry)
    ensures e in Remove(l, name) ==> e in l
    ensures e in l && e.name != name ==> e in Remove(l, name)
  {
    if l != [] && l[0].name != name {
      RemoveContents(l[1..], name, e);
    }
  }

  lemma TailIsDistinct(l: Listing)
    requires l != [] && Distinct(l)
    ensures Distinct(l[1..]) && forall e <- l[1..] :: e.name != l[0].name && e.link != l[0].link
  {
    forall i, j | 0 <= i < j < |l| - 1 ensures l[1..][i].name != l[1..][j].name && l[1..][i].link != l[1..][j].link {
      assert l[1..][i] == l[i + 1] && l[1..][j] == l[j + 1];
    }
  }

  lemma ConsIsDistinct(e: Entry, l: Listing)
    requires Distinct(l) && forall x <- l :: x.name != e.name && x.link != e.link
    ensures Distinct([e] + l)
  {
    var r := [e] + l;
    forall i, j | 0 <= i < j < |r| ensures r[i].name != r[j].name && r[i].link != r[j].link {
      assert r[j] == l[j - 1] && l[j - 1] in l;
      assert i > 0 ==> r[i] == l[i - 1];
    }
  }

  lemma {:induction false} RemoveKeepsDistinct(l: Listing, name: Name)
    requires Distinct(l)
    ensures Distinct(Remove(l, name))
    ensures forall e :: e in Remove(l, name) <==> e in l && e.name != name
  {
    forall e ensures e in Remove(l, name) ==> e in l {
      RemoveContents(l, name, e);
    }
    if l != [] {
      TailIsDistinct(l);
      RemoveKeepsDistinct(l[1..], name);
      if l[0].name != name {
        ConsIsDistinct(l[0], Remove(l[1..], name));
      }
    }
  }

  lemma RemoveKeepsClear(l: Listing, name: Name, n: Entry)
    requires Distinct(l)
    ensures Clash(Remove(l, name), n) ==> Clash(l, n)
  {
    RemoveKeepsDistinct(l, name);
    var r := Remove(l, name);
    if Clash(r, n) {
      var i, j :| 0 <= i < |r| && 0 <= j < |r| && i != j && r[i].link == n.link && r[j].name == n.name;
      assert r[i] in l && r[j] in l && r[i] != r[j];
      assert Clash(l, n);
    }
  }

  // ----- moveLink -----

  /** What the lookup of the destination name came back with. */
  datatype Lookup = Found(e: Entry) | Absent | Unanswered

  /** A lookup that answered said what the listing holds under the name. */
  ghost predicate Answers(found: Lookup, l: Listing, name: Name) {
    match found
    case Found(e) => e in l && e.name == name
    case Absent => forall e <- l :: e.name != name
    case Unanswered => false
  }

  /** moveLink trashes what the lookup found under the destination, unless it is the moved file itself. */
  predicate Trashes(found: Lookup, target: LinkId) {
    found.Found? && found.e.link != target
  }

  /** Both listings after a move across directories that went through. */
  function MovedAcross(from: Listing, to: Listing, found: Lookup, name: Name, moved: Entry): (Listing, Listing) {
    var cleared := if Trashes(found, moved.link) then Remove(to, moved.name) else to;
    (Remove(from, name), Upsert(cleared, moved))
  }

  /** The one listing after a rename inside a directory that went through. */
  function MovedWithin(l: Listing, found: Lookup, name: Name, moved: Entry): Listing {
    var cleared := if Trashes(found, moved.link) then Remove(l, moved.name) else l;
    Upsert(Remove(cleared, name), moved)
  }

  /** l lists name exactly once, and that entry has this link. */
  ghost predicate ListsOnce(l: Listing, name: Name, link: LinkId) {
    exists i :: 0 <= i < |l| && l[i].name == name && l[i].link == link && forall j :: 0 <= j < |l| && j != i ==> l[j].name != name
  }

  lemma UpsertListsOnce(l: Listing, n: Entry)
    requires Distinct(Upsert(l, n))
    ensures ListsOnce(Upsert(l, n), n.name, n.link)
  {
    UpsertWritesSlot(l, n);
    assert Upsert(l, n)[Slot(l, n)] == n;
  }

  /** Without a clash, an upsert lists the new entry and every other that has neither its link nor its name. */
  lemma UpsertMembers(l: Listing, n: Entry, e: Entry)
    requires Distinct(l) && !Clash(l, n)
    ensures e in Upsert(l, n) <==> e == n || (e in l && !Matches(e, n))
  {
    UpsertContents(l, n, e);
    UpsertKeepsDistinctIff(l, n);
    var u := Upsert(l, n);
    if e in u && e != n {
      var i :| 0 <= i < |u| && u[i] == e;
      var j :| 0 <= j < |u| && u[j] == n;
      assert i != j;
    }
  }

  /** Once the destination is out of the way, at most the moved file's own entry is in its way. */
  lemma ClearedDoesNotClash(l: Listing, found: Lookup, moved: Entry)
    requires Distinct(l) && Answers(found, l, moved.name)
    ensures var cleared := if Trashes(found, moved.link) then Remove(l, moved.name) else l;
      Distinct(cleared) && !Clash(cleared, moved)
  {
    RemoveKeepsDistinct(l, moved.name);
  }

  /**
   * A move across directories whose destination lookup answered keeps both listings free of
   * duplicates; the new directory lists the new name once, with the moved link, and the old one no
   * longer lists the old name.
   */
  lemma MoveAcrossKeepsListings(from: Listing, to: Listing, found: Lookup, name: Name, moved: Entry)
    requires Distinct(from) && Distinct(to)
    requires Answers(found, to, moved.name)
    ensures var (from', to') := MovedAcross(from, to, found, name, moved);
      && Distinct(from')
      && Distinct(to')
      && ListsOnce(to', moved.name, moved.link)
      && (forall e :: e in from' <==> e in from && e.name != name)
      && (forall e :: e in to' <==> e == moved || (e in to && e.link != moved.link && e.name != moved.name))
  {
    RemoveKeepsDistinct(from, name);
    RemoveKeepsDistinct(to, moved.name);
    ClearedDoesNotClash(to, found, moved);
    var cleared := if Trashes(found, moved.link) then Remove(to, moved.name) else to;
    UpsertKeepsDistinctIff(cleared, moved);
    UpsertListsOnce(cleared, moved);
    forall e ensures e in Upsert(cleared, moved) <==> e == moved || (e in cleared && !Matches(e, moved)) {
      UpsertMembers(cleared, moved, e);
    }
  }

  /** The same inside one directory; the old name stays only when it is the new name too. */
  lemma MoveWithinKeepsListing(l: Listing, found: Lookup, name: Name, moved: Entry)
    requires Distinct(l) && Answers(found, l, moved.name)
    ensures var l' := MovedWithin(l, found, name, moved);
      && Distinct(l')
      && ListsOnce(l', moved.name, moved.link)
      && (forall e :: e in l' <==> e == moved || (e in l && e.name != name && e.link != moved.link && e.name != moved.name))
  {
    ClearedDoesNotClash(l, found, moved);
    var cleared := if Trashes(found, moved.link) then Remove(l, moved.name) else l;
    RemoveKeepsDistinct(cleared, name);
    var rest := Remove(cleared, name);
    RemoveKeepsClear(cleared, name, moved);
    UpsertKeepsDistinctIff(rest, moved);
    UpsertListsOnce(rest, moved);
    RemoveKeepsDistinct(l, moved.name);
    forall e ensures e in Upsert(rest, moved) <==> e == moved || (e in rest && !Matches(e, moved)) {
      UpsertMembers(rest, moved, e);
    }
  }

  /**
   * When the lookup did not answer nothing is trashed. A move across directories then keeps the
   * destination free of duplicates exactly when no two of its entries hold the moved link and the new
   * name between them.
   */
  lemma UnansweredMoveAcrossIff(from: Listing, to: Listing, name: Name, moved: Entry)
    requires Distinct(from) && Distinct(to)
    ensures var (from', to') := MovedAcross(from, to, Unanswered, name, moved);
      Distinct(from') && (Distinct(to') <==> !Clash(to, moved))
  {
    RemoveKeepsDistinct(from, name);
    UpsertKeepsDistinctIff(to, moved);
  }

  /** l lists this link under this name. */
  ghost predicate ListsAs(l: Listing, link: LinkId, name: Name) {
    exists e <- l :: e.link == link && e.name == name
  }

  /**
   * Inside one directory the listing stays free of duplicates exactly when no two of its entries hold the
   * moved link and the new name between them once the old name is out.
   */
  lemma UnansweredMoveWithinIff(l: Listing, name: Name, moved: Entry)
    requires Distinct(l)
    ensures Distinct(MovedWithin(l, Unanswered, name, moved)) <==> !Clash(Remove(l, name), moved)
    ensures !Clash(Remove(l, name), moved) ==> ListsOnce(MovedWithin(l, Unanswered, name, moved), moved.name, moved.link)
  {
    RemoveKeepsDistinct(l, name);
    UpsertKeepsDistinctIff(Remove(l, name), moved);
    if !Clash(Remove(l, name), moved) {
      UpsertListsOnce(Remove(l, name), moved);
    }
  }

  /** So a directory that lists its target, or does not list the moved link at all, always keeps its listing. */
  lemma UnansweredMoveWithinKeepsListing(l: Listing, name: Name, moved: Entry)
    requires Distinct(l)
    requires ListsAs(l, moved.link, name) || forall e <- l :: e.link != moved.link
    ensures Distinct(MovedWithin(l, Unanswered, name, moved))
    ensures ListsOnce(MovedWithin(l, Unanswered, name, moved), moved.name, moved.link)
  {
    RemoveKeepsDistinct(l, name);
    forall e | e in Remove(l, name) ensures e.link != moved.link {
      if ListsAs(l, moved.link, name) {
        var t :| t in l && t.link == moved.link && t.name == name;
        var i :| 0 <= i < |l| && l[i] == t;
        var j :| 0 <= j < |l| && l[j] == e;
        assert i != j;
      }
    }
    UnansweredMoveWithinIff(l, name, moved);
  }

  /**
   * Such a destination: it already lists the moved file under a name of its own, which the directory
   * the file moves from still lists it in, and another file under the new name. The new name is then
   * listed twice.
   */
  lemma UnansweredLookupCanDuplicateNames(a: Name, b: Name, was: Name)
    requires a != b
    ensures var from, to, moved := [Entry(1, was, 0)], [Entry(1, a, 0), Entry(2, b, 0)], Entry(1, b, 1);
      && Distinct(from) && Distinct(to) && ListsAs(from, moved.link, was)
      && MovedAcross(from, to, Unanswered, was, moved).1 == [moved, Entry(2, b, 0)]
      && !Distinct(MovedAcross(from, to, Unanswered, was, moved).1)
  {
    var from, to, moved := [Entry(1, was, 0)], [Entry(1, a, 0), Entry(2, b, 0)], Entry(1, b, 1);
    assert from[0] in from;
    var out := MovedAcross(from, to, Unanswered, was, moved).1;
    assert out == [moved] + to[1..];
    assert out[0].name == out[1].name;
  }
}
