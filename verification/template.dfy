/** Filling a template by one `replace` after another. */
module Template {
  import opened Types

  /** `str::replace`: every leftmost, non-overlapping occurrence of `pattern`, from left to right. */
  function Replace(s: string, pattern: string, value: string): (r: string)
    requires pattern != ""
  {
    if |s| < |pattern| then s
    else if pattern <= s then value + Replace(s[|pattern|..], pattern, value)
    else [s[0]] + Replace(s[1..], pattern, value)
  }

  /** A template: literal text and placeholders. */
  datatype Piece = Text(text: string) | Hole(key: string)

  datatype Entry = Entry(key: string, value: string)

  function Placeholder(key: string): (p: string)
    ensures |p| == |key| + 4
  {
    "{{" + key + "}}"
  }

  function PieceText(p: Piece): string {
    if p.Text? then p.text else Placeholder(p.key)
  }

  function Flatten(pieces: seq<Piece>): string {
    if pieces == [] then "" else PieceText(pieces[0]) + Flatten(pieces[1..])
  }

  /** The replacements of `entries`, one after another. */
  function Chained(s: string, entries: seq<Entry>): string
    decreases |entries|
  {
    if entries == [] then s
    else Chained(Replace(s, Placeholder(entries[0].key), entries[0].value), entries[1..])
  }

  /** The value of `key`: that of its first entry. */
  function Lookup(entries: seq<Entry>, key: string): Option<string> {
    if entries == [] then None
    else if entries[0].key == key then Some(entries[0].value)
    else Lookup(entries[1..], key)
  }

  function Filled(p: Piece, entries: seq<Entry>): Piece {
    if p.Hole? && Lookup(entries, p.key).Some? then Text(Lookup(entries, p.key).value) else p
  }

  /** One simultaneous substitution. */
  function Fill(pieces: seq<Piece>, entries: seq<Entry>): (r: seq<Piece>)
    ensures |r| == |pieces|
    ensures forall i | 0 <= i < |r| :: r[i] == Filled(pieces[i], entries)
  {
    if pieces == [] then [] else [Filled(pieces[0], entries)] + Fill(pieces[1..], entries)
  }

  predicate Unopened(s: string) {
    '{' !in s
  }

  predicate BraceFree(s: string) {
    '{' !in s && '}' !in s
  }

  predicate PieceFit(p: Piece) {
    if p.Text? then Unopened(p.text) else BraceFree(p.key)
  }

  predicate Fit(pieces: seq<Piece>) {
    forall i | 0 <= i < |pieces| :: PieceFit(pieces[i])
  }

  predicate EntriesFit(entries: seq<Entry>) {
    forall i | 0 <= i < |entries| :: BraceFree(entries[i].key) && Unopened(entries[i].value)
  }

  lemma ReplaceStep(s: string, p: string, value: string)
    requires p != "" && s != "" && !(p <= s)
    ensures Replace(s, p, value) == [s[0]] + Replace(s[1..], p, value)
  {
  }

  /** Text without an opening brace is passed over. */
  lemma {:induction false} ReplaceSkips(t: string, rest: string, key: string, value: string)
    requires Unopened(t)
    ensures Replace(t + rest, Placeholder(key), value) == t + Replace(rest, Placeholder(key), value)
  {
    if t == "" {
      assert t + rest == rest;
    } else {
      var s, p := t + rest, Placeholder(key);
      assert s[0] == t[0] && s[1..] == t[1..] + rest && p[0] == '{';
      ReplaceStep(s, p, value);
      ReplaceSkips(t[1..], rest, key, value);
      assert t == [t[0]] + t[1..];
    }
  }

  /** Only its own placeholder begins with a placeholder. */
  lemma OwnPrefix(j: string, k: string, rest: string)
    requires BraceFree(j) && BraceFree(k) && Placeholder(k) <= Placeholder(j) + rest
    ensures j == k
  {
    var s, p := Placeholder(j) + rest, Placeholder(k);
    assert forall i | 0 <= i < |k| :: k[i] == p[i + 2] == s[i + 2];
    assert forall i | 0 <= i < |j| :: j[i] == s[i + 2];
    assert forall i | 2 <= i < |k| + 2 :: s[i] == k[i - 2] != '}';
    assert forall i | 2 <= i < |j| + 2 :: s[i] == j[i - 2] != '}';
    assert p[|k| + 2] == '}' && s[|j| + 2] == '}';
    assert |k| == |j|;
  }

  lemma ReplaceStepOne(c: char, s: string, p: string, value: string)
    requires p != "" && !(p <= [c] + s)
    ensures Replace([c] + s, p, value) == [c] + Replace(s, p, value)
  {
    assert ([c] + s)[1..] == s;
    ReplaceStep([c] + s, p, value);
  }

  lemma NoBraceAfter(t: string, key: string)
    requires t != "" && t[0] != '{'
    ensures !(Placeholder(key) <= ['{'] + t)
  {
    assert Placeholder(key)[1] == '{' && (['{'] + t)[1] == t[0];
  }

  lemma PlaceholderText(key: string, rest: string)
    ensures Placeholder(key) + rest == ['{'] + (['{'] + ((key + "}}") + rest))
    ensures BraceFree(key) ==> Unopened(key + "}}") && ((key + "}}") + rest)[0] != '{'
  {
  }

  /** A placeholder of another key is passed over. */
  lemma ReplaceSkipsOther(j: string, rest: string, key: string, value: string)
    requires BraceFree(j) && BraceFree(key) && j != key
    ensures Replace(Placeholder(j) + rest, Placeholder(key), value)
         == Placeholder(j) + Replace(rest, Placeholder(key), value)
  {
    var p, tail := Placeholder(key), j + "}}";
    if p <= Placeholder(j) + rest {
      OwnPrefix(j, key, rest);
    }
    PlaceholderText(j, rest);
    NoBraceAfter(tail + rest, key);
    ReplaceStepOne('{', ['{'] + (tail + rest), p, value);
    ReplaceStepOne('{', tail + rest, p, value);
    ReplaceSkips(tail, rest, key, value);
    PlaceholderText(j, Replace(rest, p, value));
  }

  /** One replacement fills the placeholders of its key and touches nothing else. */
  lemma {:induction false} ReplaceFills(pieces: seq<Piece>, e: Entry)
    requires Fit(pieces) && BraceFree(e.key)
    ensures Replace(Flatten(pieces), Placeholder(e.key), e.value) == Flatten(Fill(pieces, [e]))
  {
    if pieces != [] {
      var p, rest := pieces[0], Flatten(pieces[1..]);
      assert PieceFit(p);
      ReplaceFills(pieces[1..], e);
      assert Fill(pieces, [e])[1..] == Fill(pieces[1..], [e]);
      assert Lookup([e], e.key) == Some(e.value);
      assert p.Hole? && p.key != e.key ==> Lookup([e][1..], p.key).None?;
      if p.Text? {
        ReplaceSkips(p.text, rest, e.key, e.value);
      } else if p.key != e.key {
        ReplaceSkipsOther(p.key, rest, e.key, e.value);
      } else {
        var s := Placeholder(e.key) + rest;
        assert Placeholder(e.key) <= s && s[|Placeholder(e.key)|..] == rest;
      }
    }
  }

  lemma LookupOne(e: Entry, key: string)
    ensures Lookup([e], key) == if e.key == key then Some(e.value) else None
  {
    assert [e][1..] == [];
  }

  lemma FillFit(pieces: seq<Piece>, e: Entry)
    requires Fit(pieces) && Unopened(e.value)
    ensures Fit(Fill(pieces, [e]))
  {
    var r := Fill(pieces, [e]);
    forall i | 0 <= i < |r| ensures PieceFit(r[i]) {
      assert PieceFit(pieces[i]) && r[i] == Filled(pieces[i], [e]);
      if pieces[i].Hole? {
        LookupOne(e, pieces[i].key);
      }
    }
  }

  lemma FillTwice(pieces: seq<Piece>, entries: seq<Entry>)
    requires entries != []
    ensures Fill(Fill(pieces, entries[..1]), entries[1..]) == Fill(pieces, entries)
  {
    var a, b := Fill(pieces, entries[..1]), Fill(pieces, entries);
    var c := Fill(a, entries[1..]);
    forall i | 0 <= i < |pieces| ensures c[i] == b[i] {
      assert a[i] == Filled(pieces[i], entries[..1]) && c[i] == Filled(a[i], entries[1..]);
      assert entries[..1] == [entries[0]];
      if pieces[i].Hole? {
        LookupOne(entries[0], pieces[i].key);
      }
    }
  }

  /** Replacing one after another is substituting all at once, when no value opens a brace. */
  lemma {:induction false} ChainedIsSimultaneous(pieces: seq<Piece>, entries: seq<Entry>)
    requires Fit(pieces) && EntriesFit(entries)
    ensures Chained(Flatten(pieces), entries) == Flatten(Fill(pieces, entries))
    decreases |entries|
  {
    if entries == [] {
      assert Fill(pieces, entries) == pieces;
    } else {
      var e := entries[0];
      assert entries[..1] == [e];
      ReplaceFills(pieces, e);
      FillFit(pieces, e);
      ChainedIsSimultaneous(Fill(pieces, [e]), entries[1..]);
      FillTwice(pieces, entries);
    }
  }

  predicate DistinctKeys(entries: seq<Entry>) {
    forall i, j | 0 <= i < j < |entries| :: entries[i].key != entries[j].key
  }

  lemma {:induction false} LookupFinds(entries: seq<Entry>, key: string, value: string)
    requires DistinctKeys(entries)
    ensures Lookup(entries, key) == Some(value) <==> Entry(key, value) in entries
  {
    if entries != [] {
      LookupFinds(entries[1..], key, value);
      assert entries == [entries[0]] + entries[1..];
      assert forall e | e in entries[1..] :: e.key != entries[0].key;
    }
  }

  lemma SameLookup(a: seq<Entry>, b: seq<Entry>, key: string)
    requires DistinctKeys(a) && DistinctKeys(b) && forall e :: e in a <==> e in b
    ensures Lookup(a, key) == Lookup(b, key)
  {
    if Lookup(a, key).Some? {
      LookupFinds(a, key, Lookup(a, key).value);
      LookupFinds(b, key, Lookup(a, key).value);
    }
    if Lookup(b, key).Some? {
      LookupFinds(a, key, Lookup(b, key).value);
      LookupFinds(b, key, Lookup(b, key).value);
    }
  }

  /** The order of the replacements does not matter. */
  lemma OrderIrrelevant(pieces: seq<Piece>, a: seq<Entry>, b: seq<Entry>)
    requires Fit(pieces) && EntriesFit(a) && DistinctKeys(a) && DistinctKeys(b)
    requires multiset(a) == multiset(b)
    ensures Chained(Flatten(pieces), a) == Chained(Flatten(pieces), b)
  {
    assert forall e :: e in a <==> e in multiset(a);
    assert forall e :: e in b <==> e in multiset(b);
    assert EntriesFit(b) by {
      forall i | 0 <= i < |b| ensures BraceFree(b[i].key) && Unopened(b[i].value) {
        assert b[i] in a;
      }
    }
    ChainedIsSimultaneous(pieces, a);
    ChainedIsSimultaneous(pieces, b);
    forall i | 0 <= i < |pieces| ensures Filled(pieces[i], a) == Filled(pieces[i], b) {
      if pieces[i].Hole? {
        SameLookup(a, b, pieces[i].key);
      }
    }
    assert Fill(pieces, a) == Fill(pieces, b);
  }

  predicate OccursAt(s: string, p: string, i: nat) {
    i + |p| <= |s| && s[i..i + |p|] == p
  }

  ghost predicate Occurs(s: string, p: string) {
    exists i: nat :: OccursAt(s, p, i)
  }

  lemma OccursLater(s: string, p: string, i: nat)
    requires OccursAt(s, p, i) && !(p <= s)
    ensures i > 0 && OccursAt(s[1..], p, i - 1)
  {
    assert s[..|p|] == s[0..|p|];
    if i > 0 {
      assert s[1..][i - 1..i - 1 + |p|] == s[i..i + |p|];
    }
  }

  /** Deleting an occurrence shortens the text. */
  lemma {:induction false} DeletionShortens(s: string, p: string, i: nat)
    requires p != ""
    ensures |Replace(s, p, "")| <= |s|
    ensures OccursAt(s, p, i) ==> |Replace(s, p, "")| < |s|
    decreases |s|
  {
    if |p| <= |s| {
      if p <= s {
        DeletionShortens(s[|p|..], p, 0);
      } else {
        DeletionShortens(s[1..], p, if i > 0 then i - 1 else 0);
        if OccursAt(s, p, i) {
          OccursLater(s, p, i);
        }
      }
    }
  }

  lemma {:induction false} LookupHas(entries: seq<Entry>, k: nat)
    requires k < |entries|
    ensures Lookup(entries, entries[k].key).Some?
  {
    if entries[0].key != entries[k].key {
      LookupHas(entries[1..], k - 1);
    }
  }

  lemma {:induction false} LookupFit(entries: seq<Entry>, key: string)
    requires EntriesFit(entries) && Lookup(entries, key).Some?
    ensures Unopened(Lookup(entries, key).value)
  {
    if entries[0].key != key {
      LookupFit(entries[1..], key);
    }
  }

  /** Filling leaves no placeholder of a key that has a value. */
  lemma FilledHasNoHole(p: Piece, entries: seq<Entry>, k: nat)
    requires PieceFit(p) && EntriesFit(entries) && k < |entries|
    ensures PieceFit(Filled(p, entries)) && Filled(p, entries) != Hole(entries[k].key)
  {
    LookupHas(entries, k);
    if p.Hole? && Lookup(entries, p.key).Some? {
      LookupFit(entries, p.key);
    }
  }

  /** Text without a piece for `key` does not hold its placeholder. */
  lemma NoHoleNoOccurrence(pieces: seq<Piece>, key: string)
    requires Fit(pieces) && BraceFree(key) && forall i | 0 <= i < |pieces| :: pieces[i] != Hole(key)
    ensures !Occurs(Flatten(pieces), Placeholder(key))
  {
    var del := Entry(key, "");
    ReplaceFills(pieces, del);
    forall i | 0 <= i < |pieces| ensures Filled(pieces[i], [del]) == pieces[i] {
      if pieces[i].Hole? {
        LookupOne(del, pieces[i].key);
      }
    }
    assert Fill(pieces, [del]) == pieces;
    forall i: nat ensures !OccursAt(Flatten(pieces), Placeholder(key), i) {
      DeletionShortens(Flatten(pieces), Placeholder(key), i);
    }
  }

  /** After the chain no placeholder it knows is left. */
  lemma NoPlaceholderSurvives(pieces: seq<Piece>, entries: seq<Entry>, k: nat)
    requires Fit(pieces) && EntriesFit(entries) && k < |entries|
    ensures !Occurs(Chained(Flatten(pieces), entries), Placeholder(entries[k].key))
  {
    ChainedIsSimultaneous(pieces, entries);
    var r := Fill(pieces, entries);
    forall i | 0 <= i < |r| ensures PieceFit(r[i]) && r[i] != Hole(entries[k].key) {
      assert PieceFit(pieces[i]);
      FilledHasNoHole(pieces[i], entries, k);
    }
    NoHoleNoOccurrence(r, entries[k].key);
  }

  lemma FlattenOne(p: Piece)
    ensures Flatten([p]) == PieceText(p)
  {
    assert [p][1..] == [];
    assert PieceText(p) + "" == PieceText(p);
  }

  lemma ReplaceOne(key: string, e: Entry)
    requires BraceFree(key) && BraceFree(e.key)
    ensures Flatten([Hole(key)]) == Placeholder(key)
    ensures Replace(Placeholder(key), Placeholder(e.key), e.value)
         == if key == e.key then e.value else Placeholder(key)
  {
    FlattenOne(Hole(key));
    ReplaceFills([Hole(key)], e);
    LookupOne(e, key);
    assert Fill([Hole(key)], [e]) == [Filled(Hole(key), [e])];
    FlattenOne(Filled(Hole(key), [e]));
  }

  lemma ChainedTwo(s: string, a: Entry, b: Entry)
    ensures Chained(s, [a, b])
         == Replace(Replace(s, Placeholder(a.key), a.value), Placeholder(b.key), b.value)
  {
    assert [a, b][1..] == [b] && [b][1..] == [];
    var t := Replace(s, Placeholder(a.key), a.value);
    assert Chained(t, [b]) == Chained(Replace(t, Placeholder(b.key), b.value), []);
  }

  /** A value that is itself a placeholder breaks all three: a later replacement fills it, so the chain is not the
      substitution, its order matters, and the other order leaves a placeholder. */
  lemma PlaceholderInValue(a: string, b: string, x: string)
    requires BraceFree(a) && BraceFree(b) && a != b
    ensures var first, second := Entry(a, Placeholder(b)), Entry(b, x);
            && Chained(Placeholder(a), [first, second]) == x
            && Flatten(Fill([Hole(a)], [first, second])) == Placeholder(b)
            && Chained(Placeholder(a), [second, first]) == Placeholder(b)
  {
    var first, second := Entry(a, Placeholder(b)), Entry(b, x);
    ReplaceOne(a, first);
    ReplaceOne(b, second);
    ReplaceOne(a, second);
    ChainedTwo(Placeholder(a), first, second);
    ChainedTwo(Placeholder(a), second, first);
    assert Fill([Hole(a)], [first, second]) == [Text(Placeholder(b))];
    FlattenOne(Text(Placeholder(b)));
  }

  // ----- templates with separated placeholders, any values -----

  /** `texts` with `slots` in between. */
  function Around(texts: seq<string>, slots: seq<Piece>): seq<Piece>
    requires |texts| == |slots| + 1
  {
    if slots == [] then [Text(texts[0])] else [Text(texts[0]), slots[0]] + Around(texts[1..], slots[1..])
  }

  function Holes(keys: seq<string>): (r: seq<Piece>)
    ensures |r| == |keys| && forall i | 0 <= i < |r| :: r[i] == Hole(keys[i])
  {
    seq(|keys|, i requires 0 <= i < |keys| => Hole(keys[i]))
  }

  function Texts(values: seq<string>): (r: seq<Piece>)
    ensures |r| == |values| && forall i | 0 <= i < |r| :: r[i] == Text(values[i])
  {
    seq(|values|, i requires 0 <= i < |values| => Text(values[i]))
  }

  lemma AroundText(texts: seq<string>, slots: seq<Piece>)
    requires |texts| == |slots| + 1
    ensures slots == [] ==> Flatten(Around(texts, slots)) == texts[0]
    ensures slots != [] ==> Flatten(Around(texts, slots))
                            == texts[0] + (PieceText(slots[0]) + Flatten(Around(texts[1..], slots[1..])))
  {
    if slots == [] {
      FlattenOne(Text(texts[0]));
    } else {
      var tail := Around(texts[1..], slots[1..]);
      var all := [Text(texts[0]), slots[0]] + tail;
      assert all[1..] == [slots[0]] + tail && all[1..][1..] == tail;
    }
  }

  /** A text that no placeholder of `key` can reach across. */
  ghost predicate Foreign(t: string, key: string) {
    BraceFree(t) && exists i :: 0 <= i < |t| && t[i] !in key
  }

  lemma EndsInside(p: string, u: string, t: string, rest: string)
    requires |u| < |p| <= |u| + |t| && p <= u + (t + rest)
    ensures p[|p| - 1] in t
  {
    assert p[|p| - 1] == (u + (t + rest))[|p| - 1] == t[|p| - 1 - |u|];
  }

  lemma Covers(p: string, u: string, t: string, rest: string, f: nat)
    requires f < |t| && |u| + |t| < |p| && p <= u + (t + rest)
    ensures t[f] in p
  {
    assert p[|u| + f] == (u + (t + rest))[|u| + f] == t[f];
  }

  /** A placeholder that begins in front of foreign text ends in front of it. */
  lemma NoCrossing(u: string, t: string, rest: string, key: string)
    requires u != "" && Foreign(t, key) && Placeholder(key) <= u + (t + rest)
    ensures Placeholder(key) <= u
  {
    var p := Placeholder(key);
    var f: nat :| f < |t| && t[f] !in key;
    assert p[|p| - 1] == '}' && forall c | c in p :: c == '{' || c == '}' || c in key;
    assert t[f] in t;
    if |u| + |t| < |p| {
      Covers(p, u, t, rest, f);
    } else if |u| < |p| {
      EndsInside(p, u, t, rest);
    }
    assert p == (u + (t + rest))[..|p|] == u[..|p|];
  }

  lemma PrefixExtends(p: string, u: string, tail: string)
    ensures p <= u ==> p <= u + tail
  {
  }

  lemma AfterPrefix(p: string, u: string, tail: string)
    requires p <= u
    ensures p <= u + tail && (u + tail)[|p|..] == u[|p|..] + tail
  {
  }

  /** Replacing works separately on both sides of foreign text. */
  lemma {:induction false} ReplaceAcross(u: string, t: string, rest: string, key: string, value: string)
    requires Foreign(t, key)
    ensures Replace(u + (t + rest), Placeholder(key), value)
         == Replace(u, Placeholder(key), value) + Replace(t + rest, Placeholder(key), value)
    decreases |u|
  {
    var p, tail := Placeholder(key), t + rest;
    if u == "" {
      assert u + tail == tail;
    } else if p <= u + tail {
      NoCrossing(u, t, rest, key);
      AfterPrefix(p, u, tail);
      ReplaceAcross(u[|p|..], t, rest, key, value);
      var a, b := Replace(u[|p|..], p, value), Replace(tail, p, value);
      assert value + (a + b) == (value + a) + b;
    } else {
      PrefixExtends(p, u, tail);
      assert u == [u[0]] + u[1..] && u + tail == [u[0]] + (u[1..] + tail);
      ReplaceStepOne(u[0], u[1..] + tail, p, value);
      ReplaceStepOne(u[0], u[1..], p, value);
      ReplaceAcross(u[1..], t, rest, key, value);
      var a, b := Replace(u[1..], p, value), Replace(tail, p, value);
      assert [u[0]] + (a + b) == ([u[0]] + a) + b;
    }
  }

  /** What one replacement makes of a piece, the text of values already filled in included. */
  function Replaced(p: Piece, e: Entry): Piece {
    if p.Text? then Text(Replace(p.text, Placeholder(e.key), e.value))
    else if p.key == e.key then Text(e.value) else p
  }

  function ReplacedAll(slots: seq<Piece>, e: Entry): (r: seq<Piece>)
    ensures |r| == |slots| && forall i | 0 <= i < |r| :: r[i] == Replaced(slots[i], e)
  {
    seq(|slots|, i requires 0 <= i < |slots| => Replaced(slots[i], e))
  }

  predicate HoleFit(p: Piece) {
    p.Hole? ==> BraceFree(p.key)
  }

  lemma ReplaceSlot(p: Piece, t: string, rest: string, e: Entry)
    requires HoleFit(p) && BraceFree(e.key) && Foreign(t, e.key)
    ensures Replace(PieceText(p) + (t + rest), Placeholder(e.key), e.value)
         == PieceText(Replaced(p, e)) + Replace(t + rest, Placeholder(e.key), e.value)
  {
    if p.Text? {
      ReplaceAcross(p.text, t, rest, e.key, e.value);
    } else if p.key != e.key {
      ReplaceSkipsOther(p.key, t + rest, e.key, e.value);
    } else {
      var s := Placeholder(e.key) + (t + rest);
      assert Placeholder(e.key) <= s && s[|Placeholder(e.key)|..] == t + rest;
    }
  }

  /** One replacement works on every slot by itself. */
  lemma {:induction false} ReplaceSlots(texts: seq<string>, slots: seq<Piece>, e: Entry)
    requires |texts| == |slots| + 1 && BraceFree(e.key)
    requires forall i | 0 <= i < |texts| :: Foreign(texts[i], e.key)
    requires forall i | 0 <= i < |slots| :: HoleFit(slots[i])
    ensures Replace(Flatten(Around(texts, slots)), Placeholder(e.key), e.value)
         == Flatten(Around(texts, ReplacedAll(slots, e)))
    decreases |slots|
  {
    var after := ReplacedAll(slots, e);
    AroundText(texts, slots);
    AroundText(texts, after);
    if slots == [] {
      assert texts[0] + "" == texts[0];
      ReplaceSkips(texts[0], "", e.key, e.value);
    } else {
      var tail := Flatten(Around(texts[1..], slots[1..]));
      ReplaceSkips(texts[0], PieceText(slots[0]) + tail, e.key, e.value);
      AroundText(texts[1..], slots[1..]);
      assert texts[1] <= tail;
      assert tail == texts[1] + tail[|texts[1]|..];
      ReplaceSlot(slots[0], texts[1], tail[|texts[1]|..], e);
      ReplaceSlots(texts[1..], slots[1..], e);
      assert after[1..] == ReplacedAll(slots[1..], e);
    }
  }

  /** A piece after all of `entries`. */
  function Through(p: Piece, entries: seq<Entry>): Piece
    decreases |entries|
  {
    if entries == [] then p else Through(Replaced(p, entries[0]), entries[1..])
  }

  function ThroughAll(slots: seq<Piece>, entries: seq<Entry>): (r: seq<Piece>)
    ensures |r| == |slots| && forall i | 0 <= i < |r| :: r[i] == Through(slots[i], entries)
  {
    seq(|slots|, i requires 0 <= i < |slots| => Through(slots[i], entries))
  }

  ghost predicate AllForeign(texts: seq<string>, entries: seq<Entry>) {
    forall i, j | 0 <= i < |texts| && 0 <= j < |entries| :: Foreign(texts[i], entries[j].key)
  }

  lemma {:induction false} ChainSlots(texts: seq<string>, slots: seq<Piece>, entries: seq<Entry>)
    requires |texts| == |slots| + 1 && AllForeign(texts, entries)
    requires forall j | 0 <= j < |entries| :: BraceFree(entries[j].key)
    requires forall i | 0 <= i < |slots| :: HoleFit(slots[i])
    ensures Chained(Flatten(Around(texts, slots)), entries) == Flatten(Around(texts, ThroughAll(slots, entries)))
    decreases |entries|
  {
    if entries == [] {
      assert ThroughAll(slots, entries) == slots;
    } else {
      var e, next := entries[0], ReplacedAll(slots, entries[0]);
      assert forall i | 0 <= i < |texts| :: Foreign(texts[i], e.key);
      ReplaceSlots(texts, slots, e);
      assert forall i | 0 <= i < |next| :: HoleFit(next[i]) by {
        assert forall i | 0 <= i < |next| :: next[i] == Replaced(slots[i], e) && HoleFit(slots[i]);
      }
      ChainSlots(texts, next, entries[1..]);
      assert ThroughAll(next, entries[1..]) == ThroughAll(slots, entries);
    }
  }

  lemma {:induction false} ThroughText(u: string, entries: seq<Entry>)
    ensures Through(Text(u), entries) == Text(Chained(u, entries))
    decreases |entries|
  {
    if entries != [] {
      ThroughText(Replace(u, Placeholder(entries[0].key), entries[0].value), entries[1..]);
    }
  }

  /** A placeholder becomes its value as the later replacements leave it. */
  lemma {:induction false} ThroughHole(key: string, entries: seq<Entry>, m: nat)
    requires m < |entries| && entries[m].key == key && forall i | 0 <= i < m :: entries[i].key != key
    ensures Through(Hole(key), entries) == Text(Chained(entries[m].value, entries[m + 1..]))
    decreases |entries|
  {
    if m == 0 {
      ThroughText(entries[0].value, entries[1..]);
    } else {
      ThroughHole(key, entries[1..], m - 1);
      assert entries[1..][m..] == entries[m + 1..];
    }
  }

  /** `at[i]` is the entry of the key of placeholder `i`. */
  ghost predicate Places(holes: seq<string>, entries: seq<Entry>, at: seq<nat>) {
    |at| == |holes| && forall i | 0 <= i < |at| :: at[i] < |entries| && entries[at[i]].key == holes[i]
  }

  ghost predicate Separated(texts: seq<string>, holes: seq<string>, entries: seq<Entry>) {
    && |texts| == |holes| + 1 && AllForeign(texts, entries) && DistinctKeys(entries)
    && forall j | 0 <= j < |entries| :: BraceFree(entries[j].key)
  }

  /** The value at `k` as the later replacements leave it. */
  function Settled(entries: seq<Entry>, k: nat): string
    requires k < |entries|
  {
    Chained(entries[k].value, entries[k + 1..])
  }

  function SettledAt(entries: seq<Entry>, at: seq<nat>): (r: seq<string>)
    requires forall i | 0 <= i < |at| :: at[i] < |entries|
    ensures |r| == |at| && forall i | 0 <= i < |r| :: r[i] == Settled(entries, at[i])
  {
    seq(|at|, i requires 0 <= i < |at| => Settled(entries, at[i]))
  }

  function ValuesAt(entries: seq<Entry>, at: seq<nat>): (r: seq<string>)
    requires forall i | 0 <= i < |at| :: at[i] < |entries|
    ensures |r| == |at| && forall i | 0 <= i < |r| :: r[i] == entries[at[i]].value
  {
    seq(|at|, i requires 0 <= i < |at| => entries[at[i]].value)
  }

  /** For any values at all: in a template whose placeholders are separated by foreign texts, the chain puts in the
      place of each placeholder its value as the later replacements leave it, and changes nothing else. */
  lemma ChainedForAnyValues(texts: seq<string>, holes: seq<string>, entries: seq<Entry>, at: seq<nat>)
    requires Separated(texts, holes, entries) && Places(holes, entries, at)
    ensures Chained(Flatten(Around(texts, Holes(holes))), entries)
         == Flatten(Around(texts, Texts(SettledAt(entries, at))))
  {
    forall i | 0 <= i < |holes| ensures HoleFit(Holes(holes)[i]) {
      assert entries[at[i]].key == holes[i];
    }
    ChainSlots(texts, Holes(holes), entries);
    forall i | 0 <= i < |holes|
      ensures ThroughAll(Holes(holes), entries)[i] == Texts(SettledAt(entries, at))[i]
    {
      ThroughHole(holes[i], entries, at[i]);
    }
    assert ThroughAll(Holes(holes), entries) == Texts(SettledAt(entries, at));
  }

  // ----- exactly when a value may hold braces -----

  /** The number of opening braces. */
  function Opens(s: string): nat {
    if s == "" then 0 else (if s[0] == '{' then 1 else 0) + Opens(s[1..])
  }

  lemma {:induction false} OpensConcat(a: string, b: string)
    ensures Opens(a + b) == Opens(a) + Opens(b)
  {
    if a == "" {
      assert a + b == b;
    } else {
      assert (a + b)[1..] == a[1..] + b;
      OpensConcat(a[1..], b);
    }
  }

  lemma {:induction false} UnopenedOpens(s: string)
    requires Unopened(s)
    ensures Opens(s) == 0
  {
    if s != "" {
      UnopenedOpens(s[1..]);
    }
  }

  lemma PlaceholderOpens(key: string)
    ensures Opens(Placeholder(key)) > 0
  {
    assert Placeholder(key)[0] == '{';
  }

  lemma OpensFront(p: string, s: string, value: string, r: string)
    requires p <= s && Opens(p) > 0 && Unopened(value) && Opens(r) <= Opens(s[|p|..])
    ensures Opens(value + r) < Opens(s)
  {
    OpensConcat(value, r);
    UnopenedOpens(value);
    assert s == p + s[|p|..];
    OpensConcat(p, s[|p|..]);
  }

  lemma OpensStep(s: string, r: string)
    requires s != ""
    ensures Opens([s[0]] + r) - Opens(r) == Opens(s) - Opens(s[1..])
  {
    assert ([s[0]] + r)[1..] == r;
  }

  /** A replacement by a value without an opening brace keeps the number of braces or lowers it, and lowers it if it
      replaces anything. */
  lemma {:induction false} ReplaceCloses(s: string, key: string, value: string, i: nat)
    requires Unopened(value)
    ensures Opens(Replace(s, Placeholder(key), value)) <= Opens(s)
    ensures OccursAt(s, Placeholder(key), i) ==> Opens(Replace(s, Placeholder(key), value)) < Opens(s)
    decreases |s|
  {
    var p := Placeholder(key);
    if |p| <= |s| {
      if p <= s {
        ReplaceCloses(s[|p|..], key, value, 0);
        PlaceholderOpens(key);
        OpensFront(p, s, value, Replace(s[|p|..], p, value));
      } else {
        ReplaceCloses(s[1..], key, value, if i > 0 then i - 1 else 0);
        if OccursAt(s, p, i) {
          OccursLater(s, p, i);
        }
        OpensStep(s, Replace(s[1..], p, value));
      }
    }
  }

  lemma {:induction false} NothingToReplace(s: string, p: string, value: string)
    requires p != "" && !Occurs(s, p)
    ensures Replace(s, p, value) == s
    decreases |s|
  {
    if |p| <= |s| {
      assert !OccursAt(s, p, 0);
      forall i: nat ensures !OccursAt(s[1..], p, i) {
        assert !OccursAt(s, p, i + 1);
        if i + |p| <= |s[1..]| {
          assert s[1..][i..i + |p|] == s[i + 1..i + 1 + |p|];
        }
      }
      NothingToReplace(s[1..], p, value);
      assert s == [s[0]] + s[1..];
    }
  }

  /** None of the placeholders of `entries` occurs in `s`. */
  ghost predicate Untouched(s: string, entries: seq<Entry>) {
    forall j | 0 <= j < |entries| :: !Occurs(s, Placeholder(entries[j].key))
  }

  lemma UntouchedTail(s: string, entries: seq<Entry>)
    requires entries != [] && !Occurs(s, Placeholder(entries[0].key))
    ensures Untouched(s, entries) <==> Untouched(s, entries[1..])
  {
    if Untouched(s, entries[1..]) {
      forall j | 0 <= j < |entries| ensures !Occurs(s, Placeholder(entries[j].key)) {
        if j > 0 { assert entries[1..][j - 1] == entries[j]; }
      }
    }
    if Untouched(s, entries) {
      forall j | 0 <= j < |entries[1..]| ensures !Occurs(s, Placeholder(entries[1..][j].key)) {
        assert entries[1..][j] == entries[j + 1];
      }
    }
  }

  /** Replacements by values without opening braces leave a text as it is if it holds none of their placeholders, and
      lower the number of its opening braces otherwise. */
  lemma {:induction false} ChainCloses(s: string, entries: seq<Entry>)
    requires forall j | 0 <= j < |entries| :: Unopened(entries[j].value)
    ensures Opens(Chained(s, entries)) <= Opens(s)
    ensures Untouched(s, entries) ==> Chained(s, entries) == s
    ensures !Untouched(s, entries) ==> Opens(Chained(s, entries)) < Opens(s)
    decreases |entries|
  {
    if entries != [] {
      var e, p := entries[0], Placeholder(entries[0].key);
      ChainCloses(Replace(s, p, e.value), entries[1..]);
      if i: nat :| OccursAt(s, p, i) {
        ReplaceCloses(s, e.key, e.value, i);
      } else {
        assert !Occurs(s, p);
        NothingToReplace(s, p, e.value);
        UntouchedTail(s, entries);
      }
    }
  }

  lemma StartMissing(s: string, p: string, i: nat)
    requires p != "" && p[0] !in s
    ensures !OccursAt(s, p, i)
  {
    if i + |p| <= |s| {
      assert s[i..i + |p|][0] == s[i];
    }
  }

  lemma UnopenedUntouched(s: string, entries: seq<Entry>)
    requires Unopened(s)
    ensures Untouched(s, entries)
  {
    forall j | 0 <= j < |entries| ensures !Occurs(s, Placeholder(entries[j].key)) {
      var p := Placeholder(entries[j].key);
      forall i: nat ensures !OccursAt(s, p, i) {
        StartMissing(s, p, i);
      }
    }
  }

  lemma SumOpens(t: string, u: string, rest: string)
    ensures Opens(t + (u + rest)) == Opens(t) + Opens(u) + Opens(rest)
  {
    OpensConcat(t, u + rest);
    OpensConcat(u, rest);
  }

  /** If no value has more opening braces on one side and one has fewer, so has the whole text. */
  lemma {:induction false} FewerOpens(texts: seq<string>, a: seq<string>, b: seq<string>)
    requires |texts| == |a| + 1 && |a| == |b|
    requires forall i | 0 <= i < |a| :: Opens(a[i]) <= Opens(b[i])
    ensures Opens(Flatten(Around(texts, Texts(a)))) <= Opens(Flatten(Around(texts, Texts(b))))
    ensures (exists i :: 0 <= i < |a| && Opens(a[i]) < Opens(b[i]))
            ==> Opens(Flatten(Around(texts, Texts(a)))) < Opens(Flatten(Around(texts, Texts(b))))
    decreases |a|
  {
    AroundText(texts, Texts(a));
    AroundText(texts, Texts(b));
    if a != [] {
      FewerOpens(texts[1..], a[1..], b[1..]);
      assert Texts(a)[1..] == Texts(a[1..]) && Texts(b)[1..] == Texts(b[1..]);
      SumOpens(texts[0], a[0], Flatten(Around(texts[1..], Texts(a[1..]))));
      SumOpens(texts[0], b[0], Flatten(Around(texts[1..], Texts(b[1..]))));
      if i :| 0 <= i < |a| && Opens(a[i]) < Opens(b[i]) {
        if i > 0 { assert Opens(a[1..][i - 1]) < Opens(b[1..][i - 1]); }
      }
    }
  }

  lemma {:induction false} UntouchedChain(s: string, entries: seq<Entry>)
    requires Untouched(s, entries)
    ensures Chained(s, entries) == s
    decreases |entries|
  {
    if entries != [] {
      assert !Occurs(s, Placeholder(entries[0].key));
      NothingToReplace(s, Placeholder(entries[0].key), entries[0].value);
      UntouchedTail(s, entries);
      UntouchedChain(s, entries[1..]);
    }
  }

  /** Every value but that of entry `m` has no opening brace. */
  predicate OthersUnopened(entries: seq<Entry>, m: nat) {
    forall k | 0 <= k < |entries| && k != m :: Unopened(entries[k].value)
  }

  lemma OtherSettles(entries: seq<Entry>, k: nat, m: nat)
    requires k < |entries| && k != m && OthersUnopened(entries, m)
    ensures Settled(entries, k) == entries[k].value
  {
    UnopenedUntouched(entries[k].value, entries[k + 1..]);
    UntouchedChain(entries[k].value, entries[k + 1..]);
  }

  lemma OneSettles(entries: seq<Entry>, m: nat)
    requires m < |entries| && OthersUnopened(entries, m)
    ensures Untouched(entries[m].value, entries[m + 1..]) ==> Settled(entries, m) == entries[m].value
    ensures !Untouched(entries[m].value, entries[m + 1..]) ==> Opens(Settled(entries, m)) < Opens(entries[m].value)
  {
    var later := entries[m + 1..];
    assert forall j | 0 <= j < |later| :: later[j] == entries[m + 1 + j];
    ChainCloses(entries[m].value, later);
  }

  lemma SettledSame(entries: seq<Entry>, at: seq<nat>, m: nat)
    requires m < |entries| && OthersUnopened(entries, m) && forall i | 0 <= i < |at| :: at[i] < |entries|
    requires Untouched(entries[m].value, entries[m + 1..])
    ensures SettledAt(entries, at) == ValuesAt(entries, at)
  {
    OneSettles(entries, m);
    forall i | 0 <= i < |at| ensures Settled(entries, at[i]) == entries[at[i]].value {
      if at[i] != m { OtherSettles(entries, at[i], m); }
    }
  }

  lemma SettledDiffers(texts: seq<string>, entries: seq<Entry>, at: seq<nat>, m: nat)
    requires m < |entries| && OthersUnopened(entries, m) && forall i | 0 <= i < |at| :: at[i] < |entries|
    requires |texts| == |at| + 1 && m in at && !Untouched(entries[m].value, entries[m + 1..])
    ensures Flatten(Around(texts, Texts(SettledAt(entries, at))))
         != Flatten(Around(texts, Texts(ValuesAt(entries, at))))
  {
    OneSettles(entries, m);
    forall i | 0 <= i < |at| ensures Opens(SettledAt(entries, at)[i]) <= Opens(ValuesAt(entries, at)[i]) {
      if at[i] != m { OtherSettles(entries, at[i], m); }
    }
    var i :| 0 <= i < |at| && at[i] == m;
    assert Opens(SettledAt(entries, at)[i]) < Opens(ValuesAt(entries, at)[i]);
    FewerOpens(texts, SettledAt(entries, at), ValuesAt(entries, at));
  }

  /** Exactly when one value may hold braces. In a separated template, let every value but that of entry `m`, whose
      placeholder occurs, have no opening brace. Then the chain is the simultaneous substitution iff the value of `m`
      holds no placeholder that is replaced later. */
  lemma ExactForOneValue(texts: seq<string>, holes: seq<string>, entries: seq<Entry>, at: seq<nat>, m: nat)
    requires Separated(texts, holes, entries) && Places(holes, entries, at)
    requires m < |entries| && m in at && OthersUnopened(entries, m)
    ensures Chained(Flatten(Around(texts, Holes(holes))), entries)
            == Flatten(Around(texts, Texts(ValuesAt(entries, at))))
            <==> Untouched(entries[m].value, entries[m + 1..])
  {
    ChainedForAnyValues(texts, holes, entries, at);
    if Untouched(entries[m].value, entries[m + 1..]) {
      SettledSame(entries, at, m);
    } else {
      SettledDiffers(texts, entries, at, m);
    }
  }

  /** Any number of values may hold braces, as long as none of them holds a placeholder that is replaced later: then the
      chain is the simultaneous substitution. */
  lemma UntouchedValues(texts: seq<string>, holes: seq<string>, entries: seq<Entry>, at: seq<nat>)
    requires Separated(texts, holes, entries) && Places(holes, entries, at)
    requires forall i | 0 <= i < |at| :: Untouched(entries[at[i]].value, entries[at[i] + 1..])
    ensures Chained(Flatten(Around(texts, Holes(holes))), entries)
         == Flatten(Around(texts, Texts(ValuesAt(entries, at))))
  {
    ChainedForAnyValues(texts, holes, entries, at);
    forall i | 0 <= i < |at| ensures Settled(entries, at[i]) == entries[at[i]].value {
      UntouchedChain(entries[at[i]].value, entries[at[i] + 1..]);
    }
    assert SettledAt(entries, at) == ValuesAt(entries, at);
  }

  /** A placeholder that is its own value goes through any chain unchanged. */
  lemma {:induction false} OwnValueStays(key: string, entries: seq<Entry>)
    requires BraceFree(key)
    requires forall j | 0 <= j < |entries| ::
               BraceFree(entries[j].key) && (entries[j].key == key ==> entries[j].value == Placeholder(key))
    ensures Chained(Placeholder(key), entries) == Placeholder(key)
    decreases |entries|
  {
    if entries != [] {
      ReplaceOne(key, entries[0]);
      OwnValueStays(key, entries[1..]);
    }
  }
}
