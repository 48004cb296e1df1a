/** The domain description of a job's machine and the identities drawn for it. */
module DomainXml {
  import opened Types
  import opened Hex
  import opened Template

  // ----- drawn identities -----

  /** The bounds are exclusive: neither part is ever all ones. */
  type WwnPart1 = x: int | 0 <= x < 0xFFF_FFFF
  type WwnPart2 = x: int | 0 <= x < 0xFFFF_FFFF

  function Wwn(part1: WwnPart1, part2: WwnPart2): string {
    "0x5" + Padded(part1, 7, false) + Padded(part2, 8, false)
  }

  function Mac(a: Byte, b: Byte, c: Byte): string {
    Padded(0x00, 2, true) + ":" + Padded(0x1B, 2, true) + ":" + Padded(0x21, 2, true) + ":"
    + Padded(a, 2, true) + ":" + Padded(b, 2, true) + ":" + Padded(c, 2, true)
  }

  predicate Alphanumeric(c: char) {
    '0' <= c <= '9' || 'a' <= c <= 'z' || 'A' <= c <= 'Z'
  }

  function Upper(c: char): char {
    if 'a' <= c <= 'z' then 'A' + (c - 'a') else c
  }

  /** `generate_alphanumeric` of the drawn characters. */
  function Serial(drawn: string): (s: string)
    ensures |s| == |drawn|
    ensures forall i | 0 <= i < |s| :: s[i] == Upper(drawn[i])
  {
    seq(|drawn|, i requires 0 <= i < |drawn| => Upper(drawn[i]))
  }

  lemma Widths()
    ensures Pow16(2) == 0x100 && Pow16(7) == 0x1000_0000 && Pow16(8) == 0x1_0000_0000
  {
    assert Pow16(1) == 16 * Pow16(0) && Pow16(2) == 16 * Pow16(1) && Pow16(3) == 16 * Pow16(2);
    assert Pow16(4) == 16 * Pow16(3) && Pow16(5) == 16 * Pow16(4) && Pow16(6) == 16 * Pow16(5);
  }

  lemma Shifted(a: string, b: string, n: nat, p: nat)
    requires Parse(a) == Some(n) && Parse(b).Some? && Pow16(|b|) == p
    ensures Parse(a + b) == Some(n * p + Parse(b).value)
  {
    ParseAppend(a, b);
  }

  lemma WwnDigits(a: string, b: string)
    requires |a| == 7 && |b| == 8 && Parse(a).Some? && Parse(b).Some?
    ensures Parse("5" + a + b)
         == Some(5 * 0x1000_0000_0000_0000 + Parse(a).value * 0x1_0000_0000 + Parse(b).value)
  {
    Widths();
    Shifted("5", a, 5, 0x1000_0000);
    Shifted("5" + a, b, 5 * 0x1000_0000 + Parse(a).value, 0x1_0000_0000);
  }

  lemma WwnText(a: string, b: string)
    ensures ("0x5" + a + b)[..2] == "0x" && ("0x5" + a + b)[2..] == "5" + a + b
  {
  }

  /** A WWN has 18 characters, and its digits denote 5·16^15 + part1·16^8 + part2. */
  lemma WwnMeaning(part1: WwnPart1, part2: WwnPart2)
    ensures |Wwn(part1, part2)| == 18 && Wwn(part1, part2)[..2] == "0x"
    ensures Parse(Wwn(part1, part2)[2..])
         == Some(5 * 0x1000_0000_0000_0000 + part1 * 0x1_0000_0000 + part2)
  {
    Widths();
    var a, b := Padded(part1, 7, false), Padded(part2, 8, false);
    PaddedRoundTrip(part1, 7, false);
    PaddedRoundTrip(part2, 8, false);
    WwnDigits(a, b);
    WwnText(a, b);
    assert Wwn(part1, part2) == "0x5" + a + b;
  }

  /** Different draws give different WWNs. */
  lemma WwnInjective(p1: WwnPart1, p2: WwnPart2, q1: WwnPart1, q2: WwnPart2)
    requires Wwn(p1, p2) == Wwn(q1, q2)
    ensures p1 == q1 && p2 == q2
  {
    WwnMeaning(p1, p2);
    WwnMeaning(q1, q2);
  }

  lemma OctetReads(a: Byte)
    ensures |Padded(a, 2, true)| == 2 && Parse(Padded(a, 2, true)) == Some(a)
  {
    Widths();
    PaddedRoundTrip(a, 2, true);
  }

  lemma SixOctets(p: string, q: string, r: string, s: string, t: string, u: string)
    requires |p| == |q| == |r| == |s| == |t| == |u| == 2
    ensures var m := p + ":" + q + ":" + r + ":" + s + ":" + t + ":" + u;
            && |m| == 17 && m[2] == m[5] == m[8] == m[11] == m[14] == ':'
            && m[0..2] == p && m[3..5] == q && m[6..8] == r && m[9..11] == s && m[12..14] == t && m[15..17] == u
  {
  }

  /** A MAC address has 17 characters, six octets between colons that read back as the prefix and the draws. */
  lemma MacMeaning(a: Byte, b: Byte, c: Byte)
    ensures var m := Mac(a, b, c);
            && |m| == 17 && m[2] == m[5] == m[8] == m[11] == m[14] == ':'
            && Parse(m[0..2]) == Some(0x00) && Parse(m[3..5]) == Some(0x1B) && Parse(m[6..8]) == Some(0x21)
            && Parse(m[9..11]) == Some(a) && Parse(m[12..14]) == Some(b) && Parse(m[15..17]) == Some(c)
  {
    OctetReads(0x00);
    OctetReads(0x1B);
    OctetReads(0x21);
    OctetReads(a);
    OctetReads(b);
    OctetReads(c);
    SixOctets(Padded(0x00, 2, true), Padded(0x1B, 2, true), Padded(0x21, 2, true),
              Padded(a, 2, true), Padded(b, 2, true), Padded(c, 2, true));
  }

  /** Different draws give different MAC addresses. */
  lemma MacInjective(a: Byte, b: Byte, c: Byte, x: Byte, y: Byte, z: Byte)
    requires Mac(a, b, c) == Mac(x, y, z)
    ensures a == x && b == y && c == z
  {
    MacMeaning(a, b, c);
    MacMeaning(x, y, z);
  }

  // ----- rendering -----

  /** What is drawn for one machine. */
  datatype Draws = Draws(vm: string, chassis: string, disk: string, part1: WwnPart1, part2: WwnPart2,
                         mac0: Byte, mac1: Byte, mac2: Byte)
  {
    predicate Valid() {
      && |vm| == 7 && |chassis| == 7 && |disk| == 7
      && forall c | c in vm || c in chassis || c in disk :: Alphanumeric(c)
    }
  }

  function BoardSerial(d: Draws): string {
    "/" + Serial(d.vm) + "/CN123456789012"
  }

  function DiskSerial(d: Draws): string {
    "WD-WCC6Y" + Serial(d.disk)
  }

  // ----- the template and its replacements -----

  /** The keys, in the order of the replacements. */
  const KEYS := ["NAME", "UUID", "OVERLAY_PATH", "MAC_ADDRESS", "NVRAM_PATH", "VM_SERIAL", "BOARD_SERIAL",
                 "CHASSIS_SERIAL", "DISK_SERIAL", "DISK_WWN"]

  /** The placeholders of the domain template, in the order of its text. */
  const HOLES := ["NAME", "UUID", "NVRAM_PATH", "VM_SERIAL", "UUID", "BOARD_SERIAL", "CHASSIS_SERIAL",
                  "OVERLAY_PATH", "DISK_SERIAL", "DISK_WWN", "MAC_ADDRESS"]

  /** Where among the keys the key of each placeholder stands. */
  const PLACES: seq<nat> := [0, 1, 4, 5, 1, 6, 7, 2, 8, 9, 3]

  /** The values, in the order of the keys. */
  function KeyValues(name: string, uuid: string, overlay: string, nvram: string, d: Draws): (r: seq<string>)
    ensures |r| == |KEYS|
  {
    [name, uuid, overlay, Mac(d.mac0, d.mac1, d.mac2), nvram, Serial(d.vm), BoardSerial(d), Serial(d.chassis),
     DiskSerial(d), Wwn(d.part1, d.part2)]
  }

  /** The replacements of `render_domain`, in its order. */
  function Replacements(values: seq<string>): (es: seq<Entry>)
    requires |values| == |KEYS|
    ensures |es| == |KEYS| && forall i | 0 <= i < |es| :: es[i] == Entry(KEYS[i], values[i])
  {
    seq(|KEYS|, i requires 0 <= i < |KEYS| => Entry(KEYS[i], values[i]))
  }

  function RenderDomain(texts: seq<string>, name: string, uuid: string, overlay: string, nvram: string, d: Draws)
    : string
    requires |texts| == 12
  {
    Chained(Flatten(Around(texts, Holes(HOLES))), Replacements(KeyValues(name, uuid, overlay, nvram, d)))
  }

  /** `texts` with `values` in between. */
  function Woven(texts: seq<string>, values: seq<string>): string
    requires |texts| == |values| + 1
  {
    Flatten(Around(texts, Texts(values)))
  }

  /** The values in the order of the template's placeholders. */
  function Values(name: string, uuid: string, overlay: string, nvram: string, d: Draws): seq<string> {
    [name, uuid, nvram, Serial(d.vm), uuid, BoardSerial(d), Serial(d.chassis), overlay, DiskSerial(d),
     Wwn(d.part1, d.part2), Mac(d.mac0, d.mac1, d.mac2)]
  }

  predicate KeyChar(c: char) {
    c == '_' || 'A' <= c <= 'Z'
  }

  lemma KeyChars(i: nat)
    requires i < |KEYS|
    ensures forall c | c in KEYS[i] :: KeyChar(c)
  {
    assert forall i | 0 <= i < |KEYS| :: forall k | 0 <= k < |KEYS[i]| :: KeyChar(KEYS[i][k]);
  }

  lemma KeysDiffer()
    ensures forall i, j | 0 <= i < j < |KEYS| :: KEYS[i] != KEYS[j]
  {
    assert forall i, j | 0 <= i < j < |KEYS| :: |KEYS[i]| != |KEYS[j]| || KEYS[i][0] != KEYS[j][0];
  }

  lemma KeysBraceFree()
    ensures forall i | 0 <= i < |KEYS| :: BraceFree(KEYS[i])
  {
    forall i | 0 <= i < |KEYS| ensures BraceFree(KEYS[i]) {
      KeyChars(i);
    }
  }

  lemma HolesAreKeys()
    ensures |PLACES| == |HOLES| && forall i | 0 <= i < |HOLES| :: PLACES[i] < |KEYS| && HOLES[i] == KEYS[PLACES[i]]
  {
  }

  /** The two orders of the values agree. */
  lemma ValuesAgree(name: string, uuid: string, overlay: string, nvram: string, d: Draws)
    ensures var vs, ks := Values(name, uuid, overlay, nvram, d), KeyValues(name, uuid, overlay, nvram, d);
            |vs| == |PLACES| && forall i | 0 <= i < |vs| :: PLACES[i] < |ks| && vs[i] == ks[PLACES[i]]
  {
  }

  // ----- values without an opening brace -----

  lemma {:induction false} RenderUnopened(n: nat, upper: bool)
    ensures Unopened(Render(n, upper))
  {
    if n >= 16 {
      RenderUnopened(n / 16, upper);
    }
  }

  lemma {:induction false} ZerosUnopened(w: nat)
    ensures Unopened(Zeros(w))
  {
    if w > 0 {
      ZerosUnopened(w - 1);
    }
  }

  lemma PaddedUnopened(n: nat, w: nat, upper: bool)
    ensures Unopened(Padded(n, w, upper))
  {
    RenderUnopened(n, upper);
    if |Render(n, upper)| < w {
      ZerosUnopened(w - |Render(n, upper)|);
    }
  }

  lemma IdentitiesUnopened(d: Draws)
    ensures Unopened(Wwn(d.part1, d.part2)) && Unopened(Mac(d.mac0, d.mac1, d.mac2))
  {
    PaddedUnopened(d.part1, 7, false);
    PaddedUnopened(d.part2, 8, false);
    PaddedUnopened(0x00, 2, true);
    PaddedUnopened(0x1B, 2, true);
    PaddedUnopened(0x21, 2, true);
    PaddedUnopened(d.mac0, 2, true);
    PaddedUnopened(d.mac1, 2, true);
    PaddedUnopened(d.mac2, 2, true);
  }

  lemma SerialUnopened(drawn: string)
    requires forall c | c in drawn :: Alphanumeric(c)
    ensures Unopened(Serial(drawn))
  {
    forall i | 0 <= i < |drawn| ensures Serial(drawn)[i] != '{' {
      assert Alphanumeric(drawn[i]);
    }
  }

  lemma SerialsUnopened(d: Draws)
    requires d.Valid()
    ensures Unopened(Serial(d.vm)) && Unopened(Serial(d.chassis)) && Unopened(DiskSerial(d))
    ensures Unopened(BoardSerial(d))
  {
    SerialUnopened(d.vm);
    SerialUnopened(d.chassis);
    SerialUnopened(d.disk);
  }

  /** What is drawn never opens a brace. */
  lemma DrawnUnopened(d: Draws)
    requires d.Valid()
    ensures Unopened(Serial(d.vm)) && Unopened(Serial(d.chassis)) && Unopened(DiskSerial(d))
    ensures Unopened(BoardSerial(d)) && Unopened(Wwn(d.part1, d.part2)) && Unopened(Mac(d.mac0, d.mac1, d.mac2))
  {
    IdentitiesUnopened(d);
    SerialsUnopened(d);
  }

  predicate AllUnopened(values: seq<string>) {
    forall i | 0 <= i < |values| :: Unopened(values[i])
  }

  lemma TenUnopened(a: string, b: string, c: string, d: string, e: string,
                    f: string, g: string, h: string, i: string, j: string)
    requires Unopened(a) && Unopened(b) && Unopened(c) && Unopened(d) && Unopened(e)
    requires Unopened(f) && Unopened(g) && Unopened(h) && Unopened(i) && Unopened(j)
    ensures AllUnopened([a, b, c, d, e, f, g, h, i, j])
  {
  }

  lemma KeyValuesUnopened(name: string, uuid: string, overlay: string, nvram: string, d: Draws)
    requires Unopened(name) && Unopened(uuid) && Unopened(overlay) && Unopened(nvram) && d.Valid()
    ensures AllUnopened(KeyValues(name, uuid, overlay, nvram, d))
  {
    DrawnUnopened(d);
    TenUnopened(name, uuid, overlay, Mac(d.mac0, d.mac1, d.mac2), nvram, Serial(d.vm), BoardSerial(d),
                Serial(d.chassis), DiskSerial(d), Wwn(d.part1, d.part2));
  }

  lemma ReplacementsFit(values: seq<string>)
    requires |values| == |KEYS| && AllUnopened(values)
    ensures EntriesFit(Replacements(values)) && DistinctKeys(Replacements(values))
  {
    KeysDiffer();
    KeysBraceFree();
  }

  lemma {:induction false} AroundFit(texts: seq<string>, slots: seq<Piece>)
    requires |texts| == |slots| + 1
    requires forall i | 0 <= i < |texts| :: Unopened(texts[i])
    requires forall i | 0 <= i < |slots| :: PieceFit(slots[i])
    ensures Fit(Around(texts, slots))
  {
    if slots != [] {
      AroundFit(texts[1..], slots[1..]);
      var rest := Around(texts[1..], slots[1..]);
      var all := [Text(texts[0]), slots[0]] + rest;
      forall i | 0 <= i < |all| ensures PieceFit(all[i]) {
        if i >= 2 { assert all[i] == rest[i - 2]; }
      }
    }
  }

  lemma FillTwoMore(p: Piece, q: Piece, rest: seq<Piece>, es: seq<Entry>)
    ensures Fill([p, q] + rest, es) == [Filled(p, es), Filled(q, es)] + Fill(rest, es)
  {
    assert ([p, q] + rest)[1..] == [q] + rest && ([q] + rest)[1..] == rest;
  }

  /** Filling every hole weaves its value between the texts. */
  lemma {:induction false} FillWeaves(texts: seq<string>, holes: seq<string>, values: seq<string>, es: seq<Entry>)
    requires |texts| == |holes| + 1 && |values| == |holes|
    requires forall i | 0 <= i < |holes| :: Lookup(es, holes[i]) == Some(values[i])
    ensures Fill(Around(texts, Holes(holes)), es) == Around(texts, Texts(values))
  {
    if holes == [] {
      assert Fill([Text(texts[0])], es) == [Text(texts[0])];
    } else {
      FillWeaves(texts[1..], holes[1..], values[1..], es);
      assert Holes(holes)[1..] == Holes(holes[1..]) && Texts(values)[1..] == Texts(values[1..]);
      var rest := Around(texts[1..], Holes(holes[1..]));
      assert Lookup(es, holes[0]) == Some(values[0]);
      FillTwoMore(Text(texts[0]), Hole(holes[0]), rest, es);
    }
  }

  /** The template without its values, and the replacements, meet the conditions of simultaneous substitution. */
  lemma TemplateFit(texts: seq<string>)
    requires |texts| == 12 && AllUnopened(texts)
    ensures Fit(Around(texts, Holes(HOLES)))
  {
    KeysBraceFree();
    HolesAreKeys();
    AroundFit(texts, Holes(HOLES));
  }

  /** The rendered domain is the template with every placeholder replaced by its value, if neither the name, the
      uuid nor a path opens a brace. */
  lemma DomainRendered(texts: seq<string>, name: string, uuid: string, overlay: string, nvram: string, d: Draws)
    requires |texts| == 12 && AllUnopened(texts)
    requires Unopened(name) && Unopened(uuid) && Unopened(overlay) && Unopened(nvram) && d.Valid()
    ensures RenderDomain(texts, name, uuid, overlay, nvram, d) == Woven(texts, Values(name, uuid, overlay, nvram, d))
  {
    var ks, vs := KeyValues(name, uuid, overlay, nvram, d), Values(name, uuid, overlay, nvram, d);
    var es := Replacements(ks);
    KeyValuesUnopened(name, uuid, overlay, nvram, d);
    ReplacementsFit(ks);
    TemplateFit(texts);
    HolesAreKeys();
    ValuesAgree(name, uuid, overlay, nvram, d);
    ChainedIsSimultaneous(Around(texts, Holes(HOLES)), es);
    forall i | 0 <= i < |HOLES| ensures Lookup(es, HOLES[i]) == Some(vs[i]) {
      assert es[PLACES[i]] == Entry(HOLES[i], vs[i]);
      LookupFinds(es, HOLES[i], vs[i]);
    }
    FillWeaves(texts, HOLES, vs, es);
  }

  /** Then it holds none of the template's placeholders any more. */
  lemma DomainHasNoPlaceholder(texts: seq<string>, name: string, uuid: string, overlay: string, nvram: string,
                               d: Draws, k: nat)
    requires |texts| == 12 && AllUnopened(texts)
    requires Unopened(name) && Unopened(uuid) && Unopened(overlay) && Unopened(nvram) && d.Valid()
    requires k < |HOLES|
    ensures !Occurs(RenderDomain(texts, name, uuid, overlay, nvram, d), Placeholder(HOLES[k]))
  {
    KeyValuesUnopened(name, uuid, overlay, nvram, d);
    ReplacementsFit(KeyValues(name, uuid, overlay, nvram, d));
    TemplateFit(texts);
    HolesAreKeys();
    NoPlaceholderSurvives(Around(texts, Holes(HOLES)), Replacements(KeyValues(name, uuid, overlay, nvram, d)),
                          PLACES[k]);
  }

  // ----- any values -----

  /** A text of the real template: without braces, and with a character no key has, such as an angle bracket. */
  ghost predicate Separates(t: string) {
    BraceFree(t) && exists i :: 0 <= i < |t| && !KeyChar(t[i])
  }

  ghost predicate AllSeparate(texts: seq<string>) {
    forall i | 0 <= i < |texts| :: Separates(texts[i])
  }

  lemma SeparatedTemplate(texts: seq<string>, values: seq<string>)
    requires |texts| == 12 && AllSeparate(texts) && |values| == |KEYS|
    ensures Separated(texts, HOLES, Replacements(values)) && Places(HOLES, Replacements(values), PLACES)
  {
    var es := Replacements(values);
    KeysDiffer();
    KeysBraceFree();
    HolesAreKeys();
    forall i, j | 0 <= i < |texts| && 0 <= j < |es| ensures Foreign(texts[i], es[j].key) {
      KeyChars(j);
      assert Separates(texts[i]);
    }
  }

  /** Whatever the name, the uuid and the paths: the rendered domain is the template with every placeholder replaced by
      its value as the later replacements leave it. */
  lemma DomainForAnyValues(texts: seq<string>, name: string, uuid: string, overlay: string, nvram: string, d: Draws)
    requires |texts| == 12 && AllSeparate(texts)
    ensures RenderDomain(texts, name, uuid, overlay, nvram, d)
         == Woven(texts, SettledAt(Replacements(KeyValues(name, uuid, overlay, nvram, d)), PLACES))
  {
    var es := Replacements(KeyValues(name, uuid, overlay, nvram, d));
    SeparatedTemplate(texts, KeyValues(name, uuid, overlay, nvram, d));
    ChainedForAnyValues(texts, HOLES, es, PLACES);
  }

  lemma LaterKeys(values: seq<string>, m: nat)
    requires |values| == |KEYS| && m < |KEYS|
    ensures Untouched(values[m], Replacements(values)[m + 1..])
            <==> forall j | m < j < |KEYS| :: !Occurs(values[m], Placeholder(KEYS[j]))
  {
    var later := Replacements(values)[m + 1..];
    assert forall j | 0 <= j < |later| :: later[j].key == KEYS[m + 1 + j];
    assert forall j | m < j < |KEYS| :: KEYS[j] == later[j - m - 1].key;
  }

  lemma EveryKeyUsed(m: nat)
    requires m < |KEYS|
    ensures m in PLACES
  {
    assert PLACES[0] == 0 && PLACES[1] == 1 && PLACES[7] == 2 && PLACES[10] == 3 && PLACES[2] == 4;
    assert PLACES[3] == 5 && PLACES[5] == 6 && PLACES[6] == 7 && PLACES[8] == 8 && PLACES[9] == 9;
  }

  /** Exactly when one of the values may open braces: if all the others do not, the rendered domain is the template with
      every value in place iff the value of key `m` holds no placeholder of a key replaced after it. For the overlay
      path `m` is 2, for the nvram path 4, for the name and the uuid 0 and 1. */
  lemma DomainExact(texts: seq<string>, name: string, uuid: string, overlay: string, nvram: string, d: Draws, m: nat)
    requires |texts| == 12 && AllSeparate(texts) && m < |KEYS|
    requires forall k | 0 <= k < |KEYS| && k != m :: Unopened(KeyValues(name, uuid, overlay, nvram, d)[k])
    ensures RenderDomain(texts, name, uuid, overlay, nvram, d) == Woven(texts, Values(name, uuid, overlay, nvram, d))
            <==> forall j | m < j < |KEYS| ::
                   !Occurs(KeyValues(name, uuid, overlay, nvram, d)[m], Placeholder(KEYS[j]))
  {
    var ks := KeyValues(name, uuid, overlay, nvram, d);
    var es := Replacements(ks);
    SeparatedTemplate(texts, ks);
    EveryKeyUsed(m);
    ExactForOneValue(texts, HOLES, es, PLACES, m);
    ValuesAgree(name, uuid, overlay, nvram, d);
    assert ValuesAt(es, PLACES) == Values(name, uuid, overlay, nvram, d);
    LaterKeys(ks, m);
  }

  /** Several values may open braces: if none holds a placeholder of a key replaced after it, the rendered domain is the
      template with every value in place. */
  lemma DomainUntouched(texts: seq<string>, name: string, uuid: string, overlay: string, nvram: string, d: Draws)
    requires |texts| == 12 && AllSeparate(texts)
    requires forall m, j | 0 <= m < j < |KEYS| ::
               !Occurs(KeyValues(name, uuid, overlay, nvram, d)[m], Placeholder(KEYS[j]))
    ensures RenderDomain(texts, name, uuid, overlay, nvram, d) == Woven(texts, Values(name, uuid, overlay, nvram, d))
  {
    var ks := KeyValues(name, uuid, overlay, nvram, d);
    var es := Replacements(ks);
    SeparatedTemplate(texts, ks);
    forall i | 0 <= i < |PLACES| ensures Untouched(es[PLACES[i]].value, es[PLACES[i] + 1..]) {
      LaterKeys(ks, PLACES[i]);
    }
    UntouchedValues(texts, HOLES, es, PLACES);
    ValuesAgree(name, uuid, overlay, nvram, d);
    assert ValuesAt(es, PLACES) == Values(name, uuid, overlay, nvram, d);
  }

  lemma NineUnopened(name: string, uuid: string, p: string, d: Draws, k: nat)
    requires Unopened(name) && Unopened(uuid) && d.Valid() && k < |KEYS| && k != 2 && k != 4
    ensures Unopened(KeyValues(name, uuid, p, p, d)[k])
  {
    KeyValuesUnopened(name, uuid, "", "", d);
    assert KeyValues(name, uuid, p, p, d)[k] == KeyValues(name, uuid, "", "", d)[k];
  }

  /** There is no converse for two values: if both paths are the nvram placeholder itself, the overlay path holds a
      placeholder replaced after it, and is rendered as it is all the same. */
  lemma TwoPathsNoConverse(texts: seq<string>, name: string, uuid: string, d: Draws)
    requires |texts| == 12 && AllSeparate(texts) && Unopened(name) && Unopened(uuid) && d.Valid()
    ensures var p := Placeholder("NVRAM_PATH");
            Occurs(p, Placeholder(KEYS[4]))
            && RenderDomain(texts, name, uuid, p, p, d) == Woven(texts, Values(name, uuid, p, p, d))
  {
    var p := Placeholder("NVRAM_PATH");
    assert OccursAt(p, Placeholder(KEYS[4]), 0);
    var ks := KeyValues(name, uuid, p, p, d);
    var es := Replacements(ks);
    KeysDiffer();
    KeysBraceFree();
    DrawnUnopened(d);
    DomainForAnyValues(texts, name, uuid, p, p, d);
    forall k | 0 <= k < |KEYS| ensures Settled(es, k) == ks[k] {
      var later := es[k + 1..];
      if k == 2 || k == 4 {
        assert forall j | 0 <= j < |later| :: later[j] == es[k + 1 + j];
        assert forall j | 0 <= j < |KEYS| && KEYS[j] == KEYS[4] :: j == 4;
        OwnValueStays(KEYS[4], later);
      } else {
        NineUnopened(name, uuid, p, d, k);
        UnopenedUntouched(ks[k], later);
        UntouchedChain(ks[k], later);
      }
    }
    ValuesAgree(name, uuid, p, p, d);
    assert SettledAt(es, PLACES) == Values(name, uuid, p, p, d);
  }
}
