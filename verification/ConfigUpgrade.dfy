/**
 * Upgrade brings a config file in step with the keys the program documents: commented defaults of
 * keys it no longer has go, with their explanation, and keys the file neither sets nor lists are
 * added as Init writes them. A file is its lines, classified as the two patterns Upgrade matches
 * them with do.
 */
module ConfigUpgrade {
  import opened Wrappers

  type Key = string

  /**
   * eol: the line ends in a newline, which only the last may lack. A Commented line is a commented
   * default of key; a Comment is any other line that starts with '#'. Other is any line left that
   * is not blank; key is the one it sets, or lists behind an indented '#', if it does either. What
   * comes after the last newline is a line only when it is not empty.
   */
  datatype Line =
    | Blank(bare: bool, eol: bool)
    | Comment(text: string, eol: bool)
    | Commented(name: Key, text: string, eol: bool)
    | Other(key: Option<Key>, text: string, eol: bool)

  const BLANK_LINE: Line := Blank(true, true)
  const SEPARATOR: Line := Comment("----", true)

  /** A documented key: the lines that explain it, and its default. */
  datatype Field = Field(key: Key, comment: seq<string>, value: string)

  predicate Known(fields: seq<Field>, k: Key) {
    exists i :: 0 <= i < |fields| && fields[i].key == k
  }

  /** A commented default of a key the program no longer documents. */
  predicate Stale(fields: seq<Field>, l: Line) {
    l.Commented? && !Known(fields, l.name)
  }

  // ----- dropping stale defaults: one pass with a stack -----

  /** The comment lines at the end of kept popped. */
  function Popped(kept: seq<Line>): seq<Line> {
    if kept != [] && kept[|kept| - 1].Comment? then Popped(kept[..|kept| - 1]) else kept
  }

  /** What the pass makes of rest, with kept so far and skip when a stale default was just dropped. */
  function Pass(fields: seq<Field>, kept: seq<Line>, skip: bool, rest: seq<Line>): seq<Line>
    decreases |rest|
  {
    if rest == [] then kept
    else
      var l := rest[0];
      if skip && l.Blank? then Pass(fields, kept, false, rest[1..])
      else if Stale(fields, l) then Pass(fields, Popped(kept), true, rest[1..])
      else Pass(fields, kept + [l], false, rest[1..])
  }

  // ----- what it drops, read from below -----

  /** A comment just above rest goes: below it, past comments that go too, stands a stale default. */
  function Doomed(fields: seq<Field>, skip: bool, rest: seq<Line>): bool
    decreases |rest|
  {
    if rest == [] then false
    else
      var l := rest[0];
      if skip && l.Blank? then Doomed(fields, false, rest[1..])
      else if Stale(fields, l) then true
      else l.Comment? && Doomed(fields, false, rest[1..])
  }

  /**
   * The lines that stay: not the stale defaults, not a blank line right below one, and not the
   * comments right above one.
   */
  function Surviving(fields: seq<Field>, skip: bool, rest: seq<Line>): seq<Line>
    decreases |rest|
  {
    if rest == [] then []
    else
      var l := rest[0];
      if skip && l.Blank? then Surviving(fields, false, rest[1..])
      else if Stale(fields, l) then Surviving(fields, true, rest[1..])
      else if l.Comment? && Doomed(fields, false, rest[1..]) then Surviving(fields, false, rest[1..])
      else [l] + Surviving(fields, false, rest[1..])
  }

  lemma {:induction false} PoppedTwice(kept: seq<Line>)
    ensures Popped(Popped(kept)) == Popped(kept)
  {
    if kept != [] && kept[|kept| - 1].Comment? {
      PoppedTwice(kept[..|kept| - 1]);
    }
  }

  lemma PoppedOneMore(kept: seq<Line>, l: Line)
    ensures Popped(kept + [l]) == if l.Comment? then Popped(kept) else kept + [l]
  {
    assert (kept + [l])[..|kept|] == kept;
  }

  /** The pass with its stack drops exactly those lines. */
  lemma {:induction false} PassIsSurviving(fields: seq<Field>, kept: seq<Line>, skip: bool, rest: seq<Line>)
    ensures Pass(fields, kept, skip, rest) ==
      (if Doomed(fields, skip, rest) then Popped(kept) else kept) + Surviving(fields, skip, rest)
    decreases |rest|
  {
    if rest != [] {
      var l, more := rest[0], rest[1..];
      if skip && l.Blank? {
        PassIsSurviving(fields, kept, false, more);
      } else if Stale(fields, l) {
        PassIsSurviving(fields, Popped(kept), true, more);
        PoppedTwice(kept);
      } else {
        PassIsSurviving(fields, kept + [l], false, more);
        PoppedOneMore(kept, l);
        assert kept + [l] + Surviving(fields, false, more) == kept + ([l] + Surviving(fields, false, more));
      }
    }
  }

  // ----- adding what is missing -----

  /** The line sets the key, or lists it commented out. */
  predicate Mentions(l: Line, k: Key) {
    (l.Commented? && l.name == k) || (l.Other? && l.key == Some(k))
  }

  predicate Present(lines: seq<Line>, k: Key) {
    exists i :: 0 <= i < |lines| && Mentions(lines[i], k)
  }

  function Comments(texts: seq<string>): seq<Line> {
    if texts == [] then [] else [Comment(texts[0], true)] + Comments(texts[1..])
  }

  /** writeBlock: the explanation, a separator, the key commented out at its default, a blank line. */
  function Block(f: Field): seq<Line> {
    Comments(f.comment) + [SEPARATOR, Commented(f.key, f.value, true), BLANK_LINE]
  }

  function Missing(fields: seq<Field>, lines: seq<Line>): seq<Field> {
    if fields == [] then []
    else if Present(lines, fields[0].key) then Missing(fields[1..], lines)
    else [fields[0]] + Missing(fields[1..], lines)
  }

  function Blocks(fields: seq<Field>): seq<Line> {
    if fields == [] then [] else Block(fields[0]) + Blocks(fields[1..])
  }

  /** The text ended, and a blank line after it unless one is there. */
  function Spaced(lines: seq<Line>): seq<Line> {
    if lines == [] then []
    else
      var n := |lines| - 1;
      var ended := lines[n := lines[n].(eol := true)];
      if n > 0 && lines[n] == BLANK_LINE then ended else ended + [BLANK_LINE]
  }

  function StaleKeys(fields: seq<Field>, lines: seq<Line>): seq<Key> {
    if lines == [] then []
    else if Stale(fields, lines[0]) then [lines[0].name] + StaleKeys(fields, lines[1..])
    else StaleKeys(fields, lines[1..])
  }

  /** The file Upgrade leaves. */
  function Upgraded(fields: seq<Field>, lines: seq<Line>): seq<Line> {
    var text := Surviving(fields, false, lines);
    var added := Missing(fields, text);
    if added == [] && StaleKeys(fields, lines) == [] then lines
    else if added == [] then text
    else Spaced(text) + Blocks(added)
  }

  /** Upgrade's loops, up to the text it writes; changed says whether it writes at all. */
  method Upgrade(fields: seq<Field>, lines: seq<Line>)
    returns (added: seq<Key>, removed: seq<Key>, text: seq<Line>, changed: bool)
    ensures text == Upgraded(fields, lines)
    ensures removed == StaleKeys(fields, lines)
    ensures added == KeysOf(Missing(fields, Surviving(fields, false, lines)))
    ensures !changed ==> text == lines
    ensures changed <==> added != [] || removed != []
  {
    var kept;
    kept, removed := DropStale(fields, lines);
    PassIsSurviving(fields, [], false, lines);
    assert kept == Surviving(fields, false, lines);
    text := kept;
    var blocks;
    added, blocks := WriteMissing(fields, text);
    if added == [] && removed == [] { return added, removed, lines, false; }
    if added != [] && text != [] {
      text := Spaced(text);
    }
    text := text + blocks;
    changed := true;
  }

  function KeysOf(fields: seq<Field>): seq<Key> {
    if fields == [] then [] else [fields[0].key] + KeysOf(fields[1..])
  }

  method DropStale(fields: seq<Field>, lines: seq<Line>) returns (kept: seq<Line>, removed: seq<Key>)
    ensures kept == Pass(fields, [], false, lines)
    ensures removed == StaleKeys(fields, lines)
  {
    kept, removed := [], [];
    var skipBlank := false;
    var i := 0;
    while i < |lines|
      invariant i <= |lines|
      invariant Pass(fields, [], false, lines) == Pass(fields, kept, skipBlank, lines[i..])
      invariant StaleKeys(fields, lines) == removed + StaleKeys(fields, lines[i..])
    {
      var l := lines[i];
      assert lines[i..][1..] == lines[i + 1..];
      i := i + 1;
      if skipBlank && l.Blank? {
        skipBlank := false;
        continue;
      }
      skipBlank := false;
      if !Stale(fields, l) {
        kept := kept + [l];
        continue;
      }
      removed := removed + [l.name];
      kept := PopComments(kept);
      skipBlank := true;
    }
  }

  /** The explanation above a dropped default: the comment lines on top of the stack. */
  method PopComments(kept: seq<Line>) returns (out: seq<Line>)
    ensures out == Popped(kept)
  {
    out := kept;
    while out != [] && out[|out| - 1].Comment?
      invariant Popped(out) == Popped(kept)
      decreases |out|
    {
      out := out[..|out| - 1];
    }
  }

  method WriteMissing(fields: seq<Field>, text: seq<Line>) returns (added: seq<Key>, blocks: seq<Line>)
    ensures added == KeysOf(Missing(fields, text)) && blocks == Blocks(Missing(fields, text))
    ensures added == [] <==> Missing(fields, text) == []
  {
    added, blocks := [], [];
    var i := 0;
    while i < |fields|
      invariant i <= |fields|
      invariant KeysOf(Missing(fields, text)) == added + KeysOf(Missing(fields[i..], text))
      invariant Blocks(Missing(fields, text)) == blocks + Blocks(Missing(fields[i..], text))
    {
      assert fields[i..][1..] == fields[i + 1..];
      if !Present(text, fields[i].key) {
        added := added + [fields[i].key];
        blocks := blocks + Block(fields[i]);
      }
      i := i + 1;
    }
  }

  // ----- what Upgrade promises -----

  ghost predicate NoneStale(fields: seq<Field>, lines: seq<Line>) {
    forall i :: 0 <= i < |lines| ==> !Stale(fields, lines[i])
  }

  ghost predicate AllPresent(fields: seq<Field>, lines: seq<Line>) {
    forall i :: 0 <= i < |fields| ==> Present(lines, fields[i].key)
  }

  lemma {:induction false} SurvivingNoneStale(fields: seq<Field>, skip: bool, rest: seq<Line>)
    ensures NoneStale(fields, Surviving(fields, skip, rest))
    decreases |rest|
  {
    if rest != [] {
      SurvivingNoneStale(fields, false, rest[1..]);
      SurvivingNoneStale(fields, true, rest[1..]);
    }
  }

  lemma {:induction false} SurvivingAll(fields: seq<Field>, rest: seq<Line>)
    requires StaleKeys(fields, rest) == []
    ensures Surviving(fields, false, rest) == rest && !Doomed(fields, false, rest)
    decreases |rest|
  {
    if rest != [] {
      SurvivingAll(fields, rest[1..]);
    }
  }

  lemma {:induction false} NoStaleKeys(fields: seq<Field>, lines: seq<Line>)
    ensures StaleKeys(fields, lines) == [] <==> NoneStale(fields, lines)
  {
    if lines != [] {
      NoStaleKeys(fields, lines[1..]);
      assert NoneStale(fields, lines) ==> NoneStale(fields, lines[1..]) by {
        assert forall i :: 0 <= i < |lines[1..]| ==> lines[1..][i] == lines[i + 1];
      }
      assert !Stale(fields, lines[0]) && NoneStale(fields, lines[1..]) ==> NoneStale(fields, lines) by {
        assert forall i :: 0 < i < |lines| ==> lines[i] == lines[1..][i - 1];
      }
    }
  }

  lemma {:induction false} NoneMissing(fields: seq<Field>, lines: seq<Line>)
    ensures Missing(fields, lines) == [] <==> AllPresent(fields, lines)
  {
    if fields != [] {
      NoneMissing(fields[1..], lines);
      assert AllPresent(fields, lines) ==> AllPresent(fields[1..], lines) by {
        assert forall i :: 0 <= i < |fields[1..]| ==> fields[1..][i] == fields[i + 1];
      }
      assert Present(lines, fields[0].key) && AllPresent(fields[1..], lines) ==> AllPresent(fields, lines) by {
        assert forall i :: 0 < i < |fields| ==> fields[i] == fields[1..][i - 1];
      }
    }
  }

  lemma PresentStays(a: seq<Line>, b: seq<Line>, k: Key)
    ensures Present(a, k) ==> Present(a + b, k) && Present(b + a, k)
    ensures Present(a, k) ==> Present(Spaced(a), k)
  {
    if Present(a, k) {
      var i :| 0 <= i < |a| && Mentions(a[i], k);
      assert Mentions((a + b)[i], k);
      assert Mentions((b + a)[|b| + i], k);
      assert Mentions(Spaced(a)[i], k);
    }
  }

  lemma BlockPresent(f: Field)
    ensures Present(Block(f), f.key)
  {
    assert Mentions(Block(f)[|Comments(f.comment)| + 1], f.key);
  }

  /** Every documented key is in the text or among the blocks added to it. */
  lemma {:induction false} PresentOrAdded(fields: seq<Field>, text: seq<Line>, i: nat)
    requires i < |fields|
    ensures Present(text, fields[i].key) || Present(Blocks(Missing(fields, text)), fields[i].key)
  {
    var missing := Missing(fields[1..], text);
    if i > 0 {
      PresentOrAdded(fields[1..], text, i - 1);
      PresentStays(Blocks(missing), Block(fields[0]), fields[i].key);
    } else {
      BlockPresent(fields[0]);
      PresentStays(Block(fields[0]), Blocks(missing), fields[0].key);
    }
  }

  /** After Upgrade every documented key is set or listed as a commented default. */
  lemma EveryKeyIsPresent(fields: seq<Field>, lines: seq<Line>)
    ensures AllPresent(fields, Upgraded(fields, lines))
  {
    var text := Surviving(fields, false, lines);
    var added := Missing(fields, text);
    if added == [] {
      NoneMissing(fields, text);
      if StaleKeys(fields, lines) == [] { SurvivingAll(fields, lines); }
    } else {
      forall i | 0 <= i < |fields| ensures Present(Upgraded(fields, lines), fields[i].key) {
        PresentOrAdded(fields, text, i);
        PresentStays(text, [], fields[i].key);
        PresentStays(Spaced(text), Blocks(added), fields[i].key);
        PresentStays(Blocks(added), Spaced(text), fields[i].key);
      }
    }
  }

  /** A line of the file sets the key, or lists it as a commented default that is not stale. */
  ghost predicate SetOrListed(fields: seq<Field>, lines: seq<Line>, k: Key) {
    exists i :: 0 <= i < |lines| &&
      match lines[i] {
        case Other(key, _, _) => key == Some(k)
        case Commented(name, _, _) => name == k && Known(fields, k)
        case _ => false
      }
  }

  lemma PresentInTail(l: Line, rest: seq<Line>, k: Key)
    ensures Present([l] + rest, k) <==> Mentions(l, k) || Present(rest, k)
  {
    if Present([l] + rest, k) {
      var i :| 0 <= i < |[l] + rest| && Mentions(([l] + rest)[i], k);
      assert i > 0 ==> Mentions(rest[i - 1], k);
    }
    assert Mentions(l, k) ==> Mentions(([l] + rest)[0], k);
    PresentStays(rest, [l], k);
  }

  lemma SetOrListedInTail(fields: seq<Field>, rest: seq<Line>, k: Key)
    requires rest != []
    ensures SetOrListed(fields, rest, k) <==> SetOrListed(fields, [rest[0]], k) || SetOrListed(fields, rest[1..], k)
  {
    assert forall i :: 0 < i < |rest| ==> rest[i] == rest[1..][i - 1];
    assert forall i :: 0 <= i < |rest[1..]| ==> rest[1..][i] == rest[i + 1];
    assert [rest[0]][0] == rest[0];
  }

  lemma {:induction false} SurvivingPresent(fields: seq<Field>, skip: bool, rest: seq<Line>, k: Key)
    ensures Present(Surviving(fields, skip, rest), k) <==> SetOrListed(fields, rest, k)
    decreases |rest|
  {
    if rest != [] {
      SetOrListedInTail(fields, rest, k);
      SurvivingPresent(fields, false, rest[1..], k);
      SurvivingPresent(fields, true, rest[1..], k);
      PresentInTail(rest[0], Surviving(fields, false, rest[1..]), k);
      assert [rest[0]][0] == rest[0];
    }
  }

  lemma {:induction false} MissingIff(fields: seq<Field>, lines: seq<Line>, f: Field)
    ensures f in Missing(fields, lines) <==> f in fields && !Present(lines, f.key)
  {
    if fields != [] {
      MissingIff(fields[1..], lines, f);
      assert f in fields <==> f == fields[0] || f in fields[1..];
    }
  }

  /** A key's block is added exactly when the program documents it and the file neither sets it nor lists it. */
  lemma AddedIff(fields: seq<Field>, lines: seq<Line>, f: Field)
    ensures f in Missing(fields, Surviving(fields, false, lines)) <==> f in fields && !SetOrListed(fields, lines, f.key)
  {
    MissingIff(fields, Surviving(fields, false, lines), f);
    SurvivingPresent(fields, false, lines, f.key);
  }

  /** The keys Upgrade reports as removed are those of the stale defaults it found. */
  lemma {:induction false} RemovedIff(fields: seq<Field>, lines: seq<Line>, k: Key)
    ensures k in StaleKeys(fields, lines) <==>
      exists i :: 0 <= i < |lines| && lines[i].Commented? && lines[i].name == k && forall f <- fields :: f.key != k
  {
    if lines != [] {
      RemovedIff(fields, lines[1..], k);
      assert forall i :: 0 < i < |lines| ==> lines[i] == lines[1..][i - 1];
      assert Known(fields, k) <==> exists f <- fields :: f.key == k;
    }
  }

  /** A block is its key's explanation line by line, a separator, the default commented out, and a blank line. */
  lemma {:induction false} BlockLines(f: Field)
    ensures var n := |f.comment|;
      && |Block(f)| == n + 3
      && (forall i :: 0 <= i < n ==> Block(f)[i] == Comment(f.comment[i], true))
      && Block(f)[n] == Comment("----", true)
      && Block(f)[n + 1] == Commented(f.key, f.value, true)
      && Block(f)[n + 2].Blank? && Block(f)[n + 2].eol
    decreases |f.comment|
  {
    if f.comment != [] {
      BlockLines(f.(comment := f.comment[1..]));
    }
  }

  lemma {:induction false} CommentsNoneStale(fields: seq<Field>, texts: seq<string>)
    ensures NoneStale(fields, Comments(texts))
  {
    if texts != [] {
      CommentsNoneStale(fields, texts[1..]);
    }
  }

  lemma {:induction false} BlocksNoneStale(fields: seq<Field>, some: seq<Field>)
    requires forall i :: 0 <= i < |some| ==> Known(fields, some[i].key)
    ensures NoneStale(fields, Blocks(some))
  {
    if some != [] {
      CommentsNoneStale(fields, some[0].comment);
      assert NoneStale(fields, Block(some[0]));
      BlocksNoneStale(fields, some[1..]);
    }
  }

  lemma {:induction false} MissingAreKnown(all: seq<Field>, fields: seq<Field>, lines: seq<Line>)
    requires forall i :: 0 <= i < |fields| ==> Known(all, fields[i].key)
    ensures forall i :: 0 <= i < |Missing(fields, lines)| ==> Known(all, Missing(fields, lines)[i].key)
  {
    if fields != [] {
      MissingAreKnown(all, fields[1..], lines);
    }
  }

  /** After Upgrade no commented default is left of a key the program does not document. */
  lemma NoStaleDefaultIsLeft(fields: seq<Field>, lines: seq<Line>)
    ensures NoneStale(fields, Upgraded(fields, lines))
  {
    var text := Surviving(fields, false, lines);
    SurvivingNoneStale(fields, false, lines);
    NoStaleKeys(fields, lines);
    MissingAreKnown(fields, fields, text);
    BlocksNoneStale(fields, Missing(fields, text));
    assert NoneStale(fields, Spaced(text));
  }

  /** A second Upgrade changes nothing. */
  lemma UpgradeIsIdempotent(fields: seq<Field>, lines: seq<Line>)
    ensures Upgraded(fields, Upgraded(fields, lines)) == Upgraded(fields, lines)
  {
    var out := Upgraded(fields, lines);
    NoStaleDefaultIsLeft(fields, lines);
    EveryKeyIsPresent(fields, lines);
    NoStaleKeys(fields, out);
    SurvivingAll(fields, out);
    NoneMissing(fields, out);
  }

  // ----- what it leaves alone -----

  /** What a line says: a setting (or whatever else the user wrote), or a documented key's default. */
  datatype Item = Setting(key: Option<Key>, text: string) | Default(name: Key, text: string)

  function ItemOf(fields: seq<Field>, l: Line): seq<Item> {
    match l
    case Other(key, text, _) => [Setting(key, text)]
    case Commented(name, text, _) => if Known(fields, name) then [Default(name, text)] else []
    case _ => []
  }

  function Items(fields: seq<Field>, lines: seq<Line>): seq<Item> {
    if lines == [] then [] else ItemOf(fields, lines[0]) + Items(fields, lines[1..])
  }

  lemma {:induction false} ItemsAppend(fields: seq<Field>, a: seq<Line>, b: seq<Line>)
    ensures Items(fields, a + b) == Items(fields, a) + Items(fields, b)
  {
    if a == [] {
      assert a + b == b;
    } else {
      assert (a + b)[1..] == a[1..] + b;
      ItemsAppend(fields, a[1..], b);
    }
  }

  lemma {:induction false} SurvivingKeepsItems(fields: seq<Field>, skip: bool, rest: seq<Line>)
    ensures Items(fields, Surviving(fields, skip, rest)) == Items(fields, rest)
    decreases |rest|
  {
    if rest != [] {
      var l, more := rest[0], rest[1..];
      SurvivingKeepsItems(fields, false, more);
      SurvivingKeepsItems(fields, true, more);
      assert ([l] + Surviving(fields, false, more))[1..] == Surviving(fields, false, more);
    }
  }

  lemma EndedKeepsItems(fields: seq<Field>, lines: seq<Line>)
    requires lines != []
    ensures var n := |lines| - 1; Items(fields, lines[n := lines[n].(eol := true)]) == Items(fields, lines)
  {
    var n := |lines| - 1;
    var last, ended := lines[n], lines[n].(eol := true);
    assert lines == lines[..n] + [last];
    assert lines[n := ended] == lines[..n] + [ended];
    ItemsAppend(fields, lines[..n], [last]);
    ItemsAppend(fields, lines[..n], [ended]);
    assert ItemOf(fields, last) == ItemOf(fields, ended);
  }

  lemma SpacedKeepsItems(fields: seq<Field>, lines: seq<Line>)
    ensures Items(fields, Spaced(lines)) == Items(fields, lines)
  {
    if lines != [] {
      var n := |lines| - 1;
      EndedKeepsItems(fields, lines);
      assert Items(fields, [BLANK_LINE]) == [];
      ItemsAppend(fields, lines[n := lines[n].(eol := true)], [BLANK_LINE]);
    }
  }

  function Defaults(some: seq<Field>): seq<Item> {
    if some == [] then [] else [Default(some[0].key, some[0].value)] + Defaults(some[1..])
  }

  lemma {:induction false} CommentsHaveNoItems(fields: seq<Field>, texts: seq<string>)
    ensures Items(fields, Comments(texts)) == []
  {
    if texts != [] {
      CommentsHaveNoItems(fields, texts[1..]);
    }
  }

  lemma BlockItems(fields: seq<Field>, f: Field)
    requires Known(fields, f.key)
    ensures Items(fields, Block(f)) == [Default(f.key, f.value)]
  {
    var rest := [SEPARATOR, Commented(f.key, f.value, true), BLANK_LINE];
    CommentsHaveNoItems(fields, f.comment);
    ItemsAppend(fields, Comments(f.comment), rest);
    assert rest[1..] == [Commented(f.key, f.value, true), BLANK_LINE] && rest[1..][1..] == [BLANK_LINE];
    assert Items(fields, [BLANK_LINE]) == [];
    assert Items(fields, rest[1..]) == [Default(f.key, f.value)];
  }

  lemma {:induction false} BlocksItems(fields: seq<Field>, some: seq<Field>)
    requires forall i :: 0 <= i < |some| ==> Known(fields, some[i].key)
    ensures Items(fields, Blocks(some)) == Defaults(some)
  {
    if some != [] {
      BlockItems(fields, some[0]);
      ItemsAppend(fields, Block(some[0]), Blocks(some[1..]));
      BlocksItems(fields, some[1..]);
    }
  }

  /**
   * Upgrade keeps every line that is neither a comment nor blank, and every default of a documented
   * key, in order and as they were, and adds after them exactly the defaults the file lacked, in the
   * order they are documented in.
   */
  lemma UpgradeKeepsSettings(fields: seq<Field>, lines: seq<Line>)
    ensures Items(fields, Upgraded(fields, lines)) ==
      Items(fields, lines) + Defaults(Missing(fields, Surviving(fields, false, lines)))
  {
    var text := Surviving(fields, false, lines);
    var added := Missing(fields, text);
    SurvivingKeepsItems(fields, false, lines);
    SpacedKeepsItems(fields, text);
    MissingAreKnown(fields, fields, text);
    BlocksItems(fields, added);
    ItemsAppend(fields, Spaced(text), Blocks(added));
  }

  // ----- the lines of the file -----

  /** Every line but the last ends in a newline. */
  ghost predicate IsFile(lines: seq<Line>) {
    forall i :: 0 <= i < |lines| - 1 ==> lines[i].eol
  }

  ghost predicate AllEnded(lines: seq<Line>) {
    forall i :: 0 <= i < |lines| ==> lines[i].eol
  }

  lemma {:induction false} SurvivingIsFile(fields: seq<Field>, skip: bool, rest: seq<Line>)
    requires IsFile(rest)
    ensures IsFile(Surviving(fields, skip, rest))
    decreases |rest|
  {
    if rest != [] {
      assert IsFile(rest[1..]) by {
        assert forall i :: 0 <= i < |rest[1..]| ==> rest[1..][i] == rest[i + 1];
      }
      SurvivingIsFile(fields, false, rest[1..]);
      SurvivingIsFile(fields, true, rest[1..]);
    }
  }

  lemma {:induction false} CommentsAllEnded(texts: seq<string>)
    ensures AllEnded(Comments(texts))
  {
    if texts != [] {
      CommentsAllEnded(texts[1..]);
    }
  }

  lemma {:induction false} BlocksAllEnded(some: seq<Field>)
    ensures AllEnded(Blocks(some))
    ensures some != [] ==> Blocks(some) != [] && !Blocks(some)[0].Blank?
  {
    if some != [] {
      CommentsAllEnded(some[0].comment);
      assert AllEnded(Block(some[0]));
      BlocksAllEnded(some[1..]);
    }
  }

  /**
   * Blocks added to a file with text start on a line of their own, under a blank line: whatever the text
   * ended in, each of its lines ends now, they are the lines there were, and no blank line is added below one.
   */
  lemma AddedBlocksStandApart(fields: seq<Field>, lines: seq<Line>)
    requires IsFile(lines)
    ensures var text, out := Surviving(fields, false, lines), Upgraded(fields, lines);
      var added := Missing(fields, text);
      added != [] ==>
        && AllEnded(out)
        && |text| <= |out| - |Blocks(added)| <= |text| + 1
        && out[|out| - |Blocks(added)|..] == Blocks(added)
        && (forall i :: 0 <= i < |text| ==> out[i] == text[i].(eol := true))
        && (text != [] ==> out[|out| - |Blocks(added)| - 1] == BLANK_LINE)
        && (|text| > 1 && text[|text| - 1] == BLANK_LINE ==> |out| == |text| + |Blocks(added)|)
        && (text == [] ==> out == Blocks(added))
  {
    var text := Surviving(fields, false, lines);
    var added := Missing(fields, text);
    SurvivingIsFile(fields, false, lines);
    BlocksAllEnded(added);
    if added != [] {
      var spaced, out := Spaced(text), Upgraded(fields, lines);
      assert out == spaced + Blocks(added) && out[|spaced|..] == Blocks(added);
      assert AllEnded(spaced);
    }
  }

  /** So Upgrade leaves a file whose lines end, but for a last one it had no reason to touch. */
  lemma UpgradedIsFile(fields: seq<Field>, lines: seq<Line>)
    requires IsFile(lines)
    ensures IsFile(Upgraded(fields, lines))
  {
    SurvivingIsFile(fields, false, lines);
    AddedBlocksStandApart(fields, lines);
  }
}
