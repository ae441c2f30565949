/** The operator key list: PEM-aware splitting, key decoding and the kid-to-key map. */
module InlineKeys {
  import opened Prelude
  import opened Text
  import Hex
  import Base64

  const PEM_START := "-----BEGIN"
  const BEGIN_MARK := "-----BEGIN "
  const END_MARK := "-----END "
  const KEY_SIZE: nat := 32

  // ---------- Splitting ----------

  /** How many times m starts before position i. */
  function Count(s: string, m: string, i: nat): nat {
    if i == 0 then 0 else Count(s, m, i - 1) + if At(s, m, i - 1) then 1 else 0
  }

  /** Blocks opened minus blocks closed before position i; negative after a stray end marker. */
  function Depth(s: string, i: nat): int {
    Count(s, BEGIN_MARK, i) - Count(s, END_MARK, i)
  }

  /** Position i separates two entries: any comma, or with pem only a comma outside a block. */
  predicate Cut(s: string, i: nat, pem: bool)
    requires i < |s|
  {
    s[i] == ',' && (pem ==> Depth(s, i) == 0)
  }

  function PiecesFrom(s: string, start: nat, i: nat, pem: bool): seq<string>
    requires start <= i <= |s|
    decreases |s| - i
  {
    if i == |s| then [s[start..]]
    else if Cut(s, i, pem) then [s[start..i]] + PiecesFrom(s, i + 1, i + 1, pem)
    else PiecesFrom(s, start, i + 1, pem)
  }

  /** The raw text between cuts, untrimmed and with empty pieces kept. */
  function Pieces(s: string, pem: bool): seq<string> {
    PiecesFrom(s, 0, 0, pem)
  }

  /** Pieces that are not blank, as written. */
  function Keep(ps: seq<string>): seq<string> {
    if ps == [] then [] else (if Trim(ps[0]) != "" then [ps[0]] else []) + Keep(ps[1..])
  }

  function TrimAll(ps: seq<string>): (r: seq<string>)
    ensures |r| == |ps|
  {
    seq(|ps|, i requires 0 <= i < |ps| => Trim(ps[i]))
  }

  function Clean(ps: seq<string>): seq<string> {
    TrimAll(Keep(ps))
  }

  /** What the splitter promises to return. */
  function Entries(spec: string): seq<string> {
    if Contains(spec, PEM_START) then Clean(Pieces(spec, true)) else Keep(Pieces(spec, false))
  }

  lemma {:induction false} KeepConcat(ps: seq<string>, qs: seq<string>)
    ensures Keep(ps + qs) == Keep(ps) + Keep(qs)
  {
    if ps == [] {
      assert ps + qs == qs;
    } else {
      var head := if Trim(ps[0]) != "" then [ps[0]] else [];
      calc {
        Keep(ps + qs);
        { assert (ps + qs)[0] == ps[0] && (ps + qs)[1..] == ps[1..] + qs; }
        head + Keep(ps[1..] + qs);
        { KeepConcat(ps[1..], qs); }
        head + (Keep(ps[1..]) + Keep(qs));
        Keep(ps) + Keep(qs);
      }
    }
  }

  lemma CleanConcat(ps: seq<string>, qs: seq<string>)
    ensures Clean(ps + qs) == Clean(ps) + Clean(qs)
  {
    KeepConcat(ps, qs);
  }

  lemma CleanOne(p: string)
    ensures Clean([p]) == Emitted(p)
  {
    assert Keep([p]) == if Trim(p) != "" then [p] else [];
  }

  /** At a cut the slow path emits the trimmed piece, unless it is blank, and goes on behind the comma. */
  lemma CutEmits(s: string, start: nat, i: nat)
    requires start <= i < |s| && Cut(s, i, true)
    ensures Clean(PiecesFrom(s, start, i, true)) == Emitted(s[start..i]) + Clean(PiecesFrom(s, i + 1, i + 1, true))
    ensures Depth(s, i + 1) == 0
  {
    CleanOne(s[start..i]);
    CleanConcat([s[start..i]], PiecesFrom(s, i + 1, i + 1, true));
    NoMarkAtComma(s, i);
  }

  method SplitInlineEntries(spec: string) returns (out: seq<string>)
    ensures out == Entries(spec)
  {
    if !Contains(spec, PEM_START) {
      out := FilterInPlace(Pieces(spec, false));
    } else {
      out := PemAwareSplit(spec);
    }
  }

  /** The fast path reuses the split slice's own storage for the pieces it keeps. */
  method FilterInPlace(pieces: seq<string>) returns (filtered: seq<string>)
    ensures filtered == Keep(pieces)
  {
    var out := new string[|pieces|](i requires 0 <= i < |pieces| => pieces[i]);
    var kept := 0;
    for i := 0 to |pieces|
      invariant kept <= i
      invariant out[..kept] == Keep(pieces[..i])
      invariant forall k :: i <= k < |pieces| ==> out[k] == pieces[k]
    {
      KeepNext(pieces, i);
      if Trim(out[i]) != "" {
        out[kept] := out[i];
        kept := kept + 1;
        assert out[..kept] == out[..kept - 1] + [pieces[i]];
      }
    }
    assert pieces[..|pieces|] == pieces;
    filtered := out[..kept];
  }

  lemma KeepNext(pieces: seq<string>, i: nat)
    requires i < |pieces|
    ensures Keep(pieces[..i + 1]) == Keep(pieces[..i]) + if Trim(pieces[i]) != "" then [pieces[i]] else []
  {
    KeepConcat(pieces[..i], [pieces[i]]);
    assert pieces[..i + 1] == pieces[..i] + [pieces[i]];
  }

  /** The loop's state before position i: what is out, what is being collected, how many blocks are open. */
  ghost predicate Splitting(spec: string, start: nat, i: nat, out: seq<string>, current: string, depth: int) {
    && start <= i <= |spec| && current == spec[start..i] && depth == Depth(spec, i)
    && out + Clean(PiecesFrom(spec, start, i, true)) == Clean(Pieces(spec, true))
  }

  lemma AtCut(spec: string, start: nat, i: nat, out: seq<string>, current: string, depth: int)
    requires Splitting(spec, start, i, out, current, depth) && i < |spec| && depth == 0 && spec[i] == ','
    ensures Splitting(spec, i + 1, i + 1, out + Emitted(current), "", 0)
  {
    CutEmits(spec, start, i);
    assert out + (Emitted(current) + Clean(PiecesFrom(spec, i + 1, i + 1, true)))
        == (out + Emitted(current)) + Clean(PiecesFrom(spec, i + 1, i + 1, true));
  }

  lemma InsidePiece(spec: string, start: nat, i: nat, out: seq<string>, current: string, depth: int)
    requires Splitting(spec, start, i, out, current, depth) && i < |spec| && !(depth == 0 && spec[i] == ',')
    ensures Splitting(spec, start, i + 1, out, current + [spec[i]], Depth(spec, i + 1))
  {
    assert PiecesFrom(spec, start, i, true) == PiecesFrom(spec, start, i + 1, true);
  }

  lemma AtEnd(spec: string, start: nat, out: seq<string>, current: string, depth: int)
    requires Splitting(spec, start, |spec|, out, current, depth)
    ensures out + Emitted(current) == Clean(Pieces(spec, true))
  {
    assert spec[start..] == current;
    CleanOne(current);
  }

  method PemAwareSplit(spec: string) returns (out: seq<string>)
    ensures out == Clean(Pieces(spec, true))
  {
    out := [];
    var current, depth, i := "", 0, 0;
    ghost var start := 0;
    while i < |spec|
      invariant Splitting(spec, start, i, out, current, depth)
    {
      if depth == 0 && spec[i] == ',' {
        AtCut(spec, start, i, out, current, depth);
        out := out + Emitted(current);
        current := "";
        start := i + 1;
      } else {
        InsidePiece(spec, start, i, out, current, depth);
        DepthNext(spec, i);
        if i + 11 <= |spec| && spec[i..i + 11] == BEGIN_MARK {
          depth := depth + 1;
        }
        if i + 9 <= |spec| && spec[i..i + 9] == END_MARK {
          depth := depth - 1;
        }
        current := current + [spec[i]];
      }
      i := i + 1;
    }
    AtEnd(spec, start, out, current, depth);
    out := out + Emitted(current);
  }

  /** A finished piece is trimmed, and dropped when nothing is left. */
  function Emitted(piece: string): seq<string> {
    if Trim(piece) != "" then [Trim(piece)] else []
  }

  lemma DepthNext(s: string, i: nat)
    requires i < |s|
    ensures Depth(s, i + 1) == Depth(s, i)
                               + (if i + 11 <= |s| && s[i..i + 11] == BEGIN_MARK then 1 else 0)
                               - (if i + 9 <= |s| && s[i..i + 9] == END_MARK then 1 else 0)
  {
  }

  lemma NoMarkAtComma(s: string, i: nat)
    requires i < |s| && s[i] == ','
    ensures !At(s, BEGIN_MARK, i) && !At(s, END_MARK, i)
  {
    if At(s, BEGIN_MARK, i) {
      MarkSpans(s, BEGIN_MARK, i, i);
    }
    if At(s, END_MARK, i) {
      MarkSpans(s, END_MARK, i, i);
    }
  }

  /** Nothing is lost: the raw pieces rejoined with commas are the input. */
  lemma {:induction false} PiecesRejoin(s: string, start: nat, i: nat, pem: bool)
    requires start <= i <= |s|
    ensures PiecesFrom(s, start, i, pem) != []
    ensures Join(PiecesFrom(s, start, i, pem), ',') == s[start..]
    decreases |s| - i
  {
    if i < |s| {
      if Cut(s, i, pem) {
        PiecesRejoin(s, i + 1, i + 1, pem);
        assert PiecesFrom(s, start, i, pem)[1..] == PiecesFrom(s, i + 1, i + 1, pem);
        assert s[start..] == s[start..i] + [','] + s[i + 1..];
      } else {
        PiecesRejoin(s, start, i + 1, pem);
      }
    }
  }

  /** Where the separators of a piece list sit when the first piece starts at offset. */
  function Separators(ps: seq<string>, offset: int): set<int> {
    if |ps| <= 1 then {}
    else {offset + |ps[0]|} + Separators(ps[1..], offset + |ps[0]| + 1)
  }

  /** The splitter separates at every cut and nowhere else, so never inside an open block. */
  lemma {:induction false} SeparatorsAreCuts(s: string, start: nat, i: nat, pem: bool)
    requires start <= i <= |s|
    requires forall j :: start <= j < i ==> !Cut(s, j, pem)
    ensures Separators(PiecesFrom(s, start, i, pem), start) == set j | start <= j < |s| && Cut(s, j, pem)
    decreases |s| - i
  {
    if i < |s| {
      if Cut(s, i, pem) {
        SeparatorsAreCuts(s, i + 1, i + 1, pem);
        PiecesRejoin(s, i + 1, i + 1, pem);
        assert PiecesFrom(s, start, i, pem)[1..] == PiecesFrom(s, i + 1, i + 1, pem);
      } else {
        SeparatorsAreCuts(s, start, i + 1, pem);
      }
    }
  }

  lemma {:induction false} UnmarkedDepth(s: string, i: nat)
    requires forall j :: !At(s, BEGIN_MARK, j) && !At(s, END_MARK, j)
    ensures Depth(s, i) == 0
  {
    if i > 0 {
      UnmarkedDepth(s, i - 1);
    }
  }

  lemma {:induction false} UnmarkedPieces(s: string, start: nat, i: nat)
    requires start <= i <= |s|
    requires forall j :: !At(s, BEGIN_MARK, j) && !At(s, END_MARK, j)
    ensures PiecesFrom(s, start, i, true) == PiecesFrom(s, start, i, false)
    decreases |s| - i
  {
    if i < |s| {
      UnmarkedDepth(s, i);
      UnmarkedPieces(s, if Cut(s, i, true) then i + 1 else start, i + 1);
    }
  }

  /** On text without markers the fast path returns the slow path's pieces, up to trimming. */
  lemma FastPathAgrees(s: string)
    requires forall j :: !At(s, BEGIN_MARK, j) && !At(s, END_MARK, j)
    ensures TrimAll(Keep(Pieces(s, false))) == Clean(Pieces(s, true))
  {
    UnmarkedPieces(s, 0, 0);
  }

  // ---------- Decoding one key ----------

  datatype KeyError = NoSeparator | EmptyValue | BadKey | DuplicateKid

  /** PEM, 64 hex digits or standard base64; pem is the PEM block decoder. */
  function DecodePubKey(pem: string -> Option<bytes>, value: string): (r: Option<bytes>)
    ensures r.Some? ==> |r.value| == KEY_SIZE
  {
    var raw := Trim(value);
    if raw == "" then None
    else if At(raw, PEM_START, 0) then
      var block := pem(raw);
      if block.None? || |block.value| < KEY_SIZE then None
      else Some(block.value[|block.value| - KEY_SIZE..])
    else if |raw| == 2 * KEY_SIZE && Hex.Decode(raw).Some? then Hex.Decode(raw)
    else
      var b := Base64.Decode(Base64.Std, true, raw);
      if b.Some? && |b.value| == KEY_SIZE then b else None
  }

  /** A PEM block ends in the key: a bare key, or one behind a SubjectPublicKeyInfo header. */
  lemma PemDecodes(pem: string -> Option<bytes>, raw: string, header: bytes, key: bytes)
    requires IsTrimmed(raw) && At(raw, PEM_START, 0) && |key| == KEY_SIZE
    ensures pem(raw) == Some(header + key) ==> DecodePubKey(pem, raw) == Some(key)
  {
    TrimTrimmed(raw);
    assert (header + key)[|header + key| - KEY_SIZE..] == key;
  }

  /** No block, or one shorter than a key, is refused. */
  lemma PemRefused(pem: string -> Option<bytes>, raw: string)
    requires IsTrimmed(raw) && At(raw, PEM_START, 0)
    ensures DecodePubKey(pem, raw).None? <==> pem(raw).None? || |pem(raw).value| < KEY_SIZE
  {
    TrimTrimmed(raw);
  }

  // ---------- Building the map ----------

  type KeyMap = map<string, bytes>

  type Pair = Result<(string, bytes), KeyError>

  function ParseOne(pem: string -> Option<bytes>, entry: string): (r: Pair)
    ensures r.Ok? ==> |r.value.1| == KEY_SIZE
  {
    var colon := IndexOf(entry, ':');
    if colon < 0 then Err(NoSeparator) else ReadPair(pem, Trim(entry[..colon]), Trim(entry[colon + 1..]))
  }

  function ReadPair(pem: string -> Option<bytes>, kid: string, encoded: string): (r: Pair)
    ensures r.Ok? ==> |r.value.1| == KEY_SIZE
  {
    if encoded == "" then Err(EmptyValue)
    else
      var key := DecodePubKey(pem, encoded);
      if key.None? then Err(BadKey) else Ok((kid, key.value))
  }

  /** An entry is read by what stands around its first colon, up to space. */
  lemma ParseOneParts(pem: string -> Option<bytes>, left: string, right: string)
    requires Lacks(left, ':')
    ensures ParseOne(pem, left + [':'] + right) == ReadPair(pem, Trim(left), Trim(right))
  {
    IndexOfJoint(left, ':', right);
  }

  /** A kid without a value, and a value that is no key. */
  lemma EntryErrors(pem: string -> Option<bytes>, left: string, right: string)
    requires Lacks(left, ':')
    ensures AllSpace(right) ==> ParseOne(pem, left + [':'] + right) == Err(EmptyValue)
    ensures !AllSpace(right) && DecodePubKey(pem, Trim(right)).None? ==>
              ParseOne(pem, left + [':'] + right) == Err(BadKey)
  {
    ParseOneParts(pem, left, right);
    if AllSpace(right) {
      TrimPad(right, "", "");
      assert right + "" + "" == right;
    } else {
      var l, r := TrimExactly(right);
    }
  }

  function Reader(pem: string -> Option<bytes>): string -> Pair {
    entry => ParseOne(pem, entry)
  }

  /** The map the loop builds, for any way of reading one entry. */
  function ParseFrom(read: string -> Pair, entries: seq<string>, acc: KeyMap): Result<KeyMap, KeyError> {
    if entries == [] then Ok(acc)
    else
      var one := read(entries[0]);
      if one.Err? then Err(one.error)
      else if one.value.0 in acc then Err(DuplicateKid)
      else ParseFrom(read, entries[1..], acc[one.value.0 := one.value.1])
  }

  function Parse(pem: string -> Option<bytes>, spec: string): Result<KeyMap, KeyError> {
    ParseFrom(Reader(pem), Entries(spec), map[])
  }

  method ParseInlinePubKeys(pem: string -> Option<bytes>, spec: string) returns (r: Result<KeyMap, KeyError>)
    ensures r == Parse(pem, spec)
  {
    var out: KeyMap := map[];
    var entries := SplitInlineEntries(spec);
    for i := 0 to |entries|
      invariant ParseFrom(Reader(pem), entries[i..], out) == Parse(pem, spec)
    {
      var entry := entries[i];
      assert entries[i..][1..] == entries[i + 1..];
      var colon := IndexOf(entry, ':');
      if colon < 0 {
        return Err(NoSeparator);
      }
      var kid := Trim(entry[..colon]);
      var encoded := Trim(entry[colon + 1..]);
      if encoded == "" {
        return Err(EmptyValue);
      }
      var key := DecodePubKey(pem, encoded);
      if key.None? {
        return Err(BadKey);
      }
      if kid in out {
        return Err(DuplicateKid);
      }
      out := out[kid := key.value];
    }
    r := Ok(out);
  }

  /**
   An accepted list names every kid once: the map has one key per entry, each entry's own
   key, and every key is 32 bytes long.
   */
  lemma {:induction false} ParseSound(read: string -> Pair, entries: seq<string>, acc: KeyMap)
    requires ParseFrom(read, entries, acc).Ok? && forall e :: read(e).Ok? ==> |read(e).value.1| == KEY_SIZE
    ensures var m := ParseFrom(read, entries, acc).value;
            && |m| == |acc| + |entries|
            && (forall kid :: kid in acc ==> kid in m && m[kid] == acc[kid])
            && (forall i :: 0 <= i < |entries| ==>
                  var one := read(entries[i]);
                  one.Ok? && one.value.0 !in acc && one.value.0 in m && m[one.value.0] == one.value.1)
            && (forall kid :: kid in m && kid !in acc ==> |m[kid]| == KEY_SIZE)
  {
    if entries != [] {
      var one := read(entries[0]);
      var next := acc[one.value.0 := one.value.1];
      ParseSound(read, entries[1..], next);
      assert next.Keys == acc.Keys + {one.value.0};
      assert forall i :: 1 <= i < |entries| ==> entries[i] == entries[1..][i - 1];
    }
  }

  predicate Names(read: string -> Pair, entry: string, kid: string) {
    read(entry).Ok? && read(entry).value.0 == kid
  }

  /** A repeated kid is refused wherever its two entries stand. */
  lemma RepeatedKidRefused(pem: string -> Option<bytes>, spec: string, kid: string, i: nat, j: nat)
    requires i < j < |Entries(spec)|
    requires Names(Reader(pem), Entries(spec)[i], kid) && Names(Reader(pem), Entries(spec)[j], kid)
    ensures Parse(pem, spec).Err?
  {
    RepeatRefused(Reader(pem), Entries(spec), map[], kid, i, j);
  }

  lemma {:induction false} RepeatRefused(read: string -> Pair, es: seq<string>, acc: KeyMap, kid: string, i: nat,
      j: nat)
    requires i < j < |es| && Names(read, es[i], kid) && Names(read, es[j], kid)
    ensures ParseFrom(read, es, acc).Err?
  {
    if ParseFrom(read, es, acc).Ok? {
      var one := read(es[0]).value;
      if i == 0 {
        TakenKidRefused(read, es[1..], acc[one.0 := one.1], kid, j - 1);
      } else {
        RepeatRefused(read, es[1..], acc[one.0 := one.1], kid, i - 1, j - 1);
      }
    }
  }

  lemma {:induction false} TakenKidRefused(read: string -> Pair, es: seq<string>, acc: KeyMap, kid: string, j: nat)
    requires j < |es| && Names(read, es[j], kid) && kid in acc
    ensures ParseFrom(read, es, acc).Err?
  {
    if ParseFrom(read, es, acc).Ok? && j > 0 {
      var one := read(es[0]).value;
      TakenKidRefused(read, es[1..], acc[one.0 := one.1], kid, j - 1);
    }
  }

  // ---------- Printing and parsing back ----------

  /** How a key is written: in hex, in base64, or as the given PEM text. */
  datatype Form = InHex | InBase64 | InPem(text: string)

  /** White space around the kid and around the key. */
  datatype Pads = Pads(before: string, afterKid: string, beforeKey: string, after: string)

  datatype Entry = Entry(kid: string, key: bytes, form: Form, pads: Pads)

  function KeyText(e: Entry): string {
    match e.form
    case InHex => Hex.Encode(e.key)
    case InBase64 => Base64.Encode(Base64.Std, true, e.key)
    case InPem(text) => text
  }

  function KidPart(e: Entry): string {
    e.pads.before + e.kid + e.pads.afterKid
  }

  function KeyPart(e: Entry): string {
    e.pads.beforeKey + KeyText(e) + e.pads.after
  }

  function Line(e: Entry): string {
    KidPart(e) + [':'] + KeyPart(e)
  }

  /** All blocks opened in the line are closed in it, and no comma stands outside one. */
  predicate Balanced(line: string) {
    Depth(line, |line|) == 0 && forall i :: 0 <= i < |line| ==> !Cut(line, i, true)
  }

  predicate EndsIn(block: bytes, key: bytes) {
    |block| >= |key| && block[|block| - |key|..] == key
  }

  /** The key's text decodes to the key. A PEM text must hold a block that ends in it. */
  predicate GoodForm(pem: string -> Option<bytes>, e: Entry) {
    e.form.InPem? ==>
      var text := e.form.text;
      && IsTrimmed(text) && At(text, PEM_START, 0)
      && pem(text).Some? && EndsIn(pem(text).value, e.key)
  }

  /** A kid the list syntax can carry, with a full-length key. */
  ghost predicate Printable(pem: string -> Option<bytes>, e: Entry) {
    && Lacks(e.kid, ',') && Lacks(e.kid, ':') && IsTrimmed(e.kid) && |e.key| == KEY_SIZE
    && AllSpace(e.pads.before) && AllSpace(e.pads.afterKid) && AllSpace(e.pads.beforeKey) && AllSpace(e.pads.after)
    && GoodForm(pem, e) && Balanced(Line(e))
  }

  /** A line with neither marker nor comma is balanced. */
  lemma UnmarkedBalanced(line: string)
    requires Lacks(line, ',') && forall j :: !At(line, BEGIN_MARK, j) && !At(line, END_MARK, j)
    ensures Balanced(line)
  {
    UnmarkedDepth(line, |line|);
  }

  function Lines(es: seq<Entry>): (r: seq<string>)
    ensures |r| == |es| && forall i :: 0 <= i < |es| ==> r[i] == Line(es[i])
  {
    seq(|es|, i requires 0 <= i < |es| => Line(es[i]))
  }

  function Print(es: seq<Entry>): string {
    Join(Lines(es), ',')
  }

  predicate DistinctKids(es: seq<Entry>) {
    forall i, j :: 0 <= i < j < |es| ==> es[i].kid != es[j].kid
  }

  ghost predicate AllPrintable(pem: string -> Option<bytes>, es: seq<Entry>) {
    forall i :: 0 <= i < |es| ==> Printable(pem, es[i])
  }

  function MapOf(es: seq<Entry>): KeyMap {
    if es == [] then map[] else MapOf(es[1..])[es[0].kid := es[0].key]
  }

  lemma KeyTextShape(pem: string -> Option<bytes>, e: Entry)
    requires Printable(pem, e)
    ensures var t := KeyText(e);
            && t != "" && IsTrimmed(t)
            && (e.form.InPem? ==> Contains(t, PEM_START))
            && (!e.form.InPem? ==> Lacks(t, ',') && Lacks(t, '-') && (|t| == 64 <==> e.form.InHex?))
  {
    if e.form.InBase64? {
      Base64.EncodeShape(Base64.Std, true, e.key);
    }
  }

  /** One printed entry reads back as its kid and key. */
  lemma LineParses(pem: string -> Option<bytes>, e: Entry)
    requires Printable(pem, e)
    ensures ParseOne(pem, Line(e)) == Ok((e.kid, e.key))
  {
    KeyTextShape(pem, e);
    KeyTextDecodes(pem, e);
    SpaceLacks(e.pads.before, ':');
    SpaceLacks(e.pads.afterKid, ':');
    ParseOneParts(pem, KidPart(e), KeyPart(e));
    TrimPad(e.pads.before, e.kid, e.pads.afterKid);
    TrimTrimmed(e.kid);
    TrimPad(e.pads.beforeKey, KeyText(e), e.pads.after);
    TrimTrimmed(KeyText(e));
  }

  lemma SpaceLacks(s: string, c: char)
    requires AllSpace(s) && !IsSpace(c)
    ensures Lacks(s, c)
  {
  }

  lemma Regrouped(l: string, kid: string, value: string, r: string)
    ensures l + (kid + [':'] + value) + r == (l + kid) + [':'] + (value + r)
  {
  }

  lemma PaddedParts(pem: string -> Option<bytes>, l: string, kid: string, value: string, r: string)
    requires AllSpace(l) && AllSpace(r) && Lacks(kid, ':')
    ensures ParseOne(pem, l + (kid + [':'] + value) + r) == ParseOne(pem, kid + [':'] + value)
  {
    Regrouped(l, kid, value, r);
    SpaceLacks(l, ':');
    TrimAhead(l, kid);
    TrimBehind(value, r);
    ParseOneParts(pem, kid, value);
    ParseOneParts(pem, l + kid, value + r);
  }

  lemma ParseOnePadded(pem: string -> Option<bytes>, l: string, t: string, r: string)
    requires AllSpace(l) && AllSpace(r)
    ensures ParseOne(pem, l + t + r) == ParseOne(pem, t)
  {
    var colon := IndexOf(t, ':');
    if colon < 0 {
      NoColon(pem, l, t, r);
    } else {
      PaddedParts(pem, l, t[..colon], t[colon + 1..], r);
      AroundColon(t, colon);
    }
  }

  lemma AroundColon(t: string, colon: nat)
    requires colon < |t| && t[colon] == ':'
    ensures t[..colon] + [':'] + t[colon + 1..] == t
  {
  }

  lemma NoColon(pem: string -> Option<bytes>, l: string, t: string, r: string)
    requires AllSpace(l) && AllSpace(r) && Lacks(t, ':')
    ensures ParseOne(pem, l + t + r) == ParseOne(pem, t) == Err(NoSeparator)
  {
    SpaceLacks(l, ':');
    SpaceLacks(r, ':');
    assert Lacks(l + t + r, ':');
  }

  /** The splitter's trimming makes no difference to what an entry reads as. */
  lemma ParseOneOfTrim(pem: string -> Option<bytes>, s: string)
    ensures ParseOne(pem, Trim(s)) == ParseOne(pem, s)
  {
    var l, r := TrimExactly(s);
    ParseOnePadded(pem, l, Trim(s), r);
  }

  function Head(e: Entry): string {
    KidPart(e) + [':'] + e.pads.beforeKey
  }

  lemma LineParts(e: Entry)
    ensures Line(e) == Head(e) + KeyText(e) + e.pads.after
  {
  }

  lemma VisibleWithin(left: string, text: string, after: string)
    requires text != "" && IsTrimmed(text) && AllSpace(after)
    ensures Trim(left + text + after) != ""
  {
    TrimBehind(left + text, after);
    TrimVisible(left + text);
  }

  lemma HeadLacksComma(pem: string -> Option<bytes>, e: Entry)
    requires Printable(pem, e)
    ensures Lacks(Head(e), ',') && Lacks(e.pads.after, ',')
  {
    SpaceLacks(e.pads.before, ',');
    SpaceLacks(e.pads.afterKid, ',');
    SpaceLacks(e.pads.beforeKey, ',');
    SpaceLacks(e.pads.after, ',');
  }

  lemma LacksAll(a: string, b: string, c: string, x: char)
    requires Lacks(a, x) && Lacks(b, x) && Lacks(c, x)
    ensures Lacks(a + b + c, x)
  {
  }

  /** A line does not trim to nothing; without PEM it holds no comma, with PEM the marker. */
  lemma LinePlain(pem: string -> Option<bytes>, e: Entry)
    requires Printable(pem, e)
    ensures Trim(Line(e)) != "" && (!e.form.InPem? ==> Lacks(Line(e), ','))
    ensures e.form.InPem? ==> Contains(Line(e), PEM_START)
  {
    LineParts(e);
    KeyTextShape(pem, e);
    VisibleWithin(Head(e), KeyText(e), e.pads.after);
    HeadLacksComma(pem, e);
    if e.form.InPem? {
      ContainsWithin(Head(e), KeyText(e), e.pads.after, PEM_START);
    } else {
      LacksAll(Head(e), KeyText(e), e.pads.after, ',');
    }
  }

  lemma KeyTextDecodes(pem: string -> Option<bytes>, e: Entry)
    requires Printable(pem, e)
    ensures DecodePubKey(pem, KeyText(e)) == Some(e.key)
  {
    var t := KeyText(e);
    KeyTextShape(pem, e);
    TrimTrimmed(t);
    if e.form.InPem? {
      var block := pem(t).value;
      assert block == block[..|block| - KEY_SIZE] + e.key;
      PemDecodes(pem, t, block[..|block| - KEY_SIZE], e.key);
    } else {
      NoDashNoMark(t);
      Base64.RoundTrip(Base64.Std, true, e.key);
    }
  }

  lemma NoDashNoMark(t: string)
    requires Lacks(t, '-')
    ensures !Contains(t, PEM_START)
  {
    forall i: nat | At(t, PEM_START, i)
      ensures false
    {
      MarkSpans(t, PEM_START, i, i);
    }
  }

  // ---------- Splitting a joined list ----------

  /** Piece p stands at start, closed by a comma or the end of the text. */
  predicate Stands(s: string, start: nat, p: string) {
    var end := start + |p|;
    end <= |s| && s[start..end] == p && (end == |s| || s[end] == ',')
  }

  lemma MarkInPiece(s: string, start: nat, p: string, m: string, k: nat)
    requires Stands(s, start, p) && Lacks(m, ',') && m != "" && k < |p|
    ensures At(s, m, start + k) <==> At(p, m, k)
  {
    var end := start + |p|;
    if At(s, m, start + k) && start + k + |m| > end {
      MarkSpans(s, m, start + k, end);
    }
    if k + |m| <= |p| {
      SliceOfSlice(s, start, end, k, k + |m|);
    }
  }

  lemma SliceOfSlice(s: string, a: nat, b: nat, i: nat, j: nat)
    requires a <= b <= |s| && i <= j <= b - a
    ensures s[a..b][i..j] == s[a + i..a + j]
  {
    forall k | 0 <= k < j - i ensures s[a..b][i..j][k] == s[a + i..a + j][k] {
      assert s[a..b][i + k] == s[a + i + k];
    }
  }

  lemma {:induction false} CountShift(s: string, start: nat, p: string, m: string, k: nat)
    requires Stands(s, start, p) && Lacks(m, ',') && m != "" && k <= |p|
    ensures Count(s, m, start + k) == Count(s, m, start) + Count(p, m, k)
  {
    if k > 0 {
      CountShift(s, start, p, m, k - 1);
      MarkInPiece(s, start, p, m, k - 1);
      CountNext(s, m, start + k - 1);
      CountNext(p, m, k - 1);
    }
  }

  lemma CountNext(s: string, m: string, i: nat)
    ensures Count(s, m, i + 1) == Count(s, m, i) + if At(s, m, i) then 1 else 0
  {
  }

  lemma DepthShift(s: string, start: nat, p: string, k: nat)
    requires Stands(s, start, p) && k <= |p|
    ensures Depth(s, start + k) == Depth(s, start) + Depth(p, k)
  {
    CountShift(s, start, p, BEGIN_MARK, k);
    CountShift(s, start, p, END_MARK, k);
  }

  predicate Splittable(p: string, pem: bool) {
    if pem then Balanced(p) else Lacks(p, ',')
  }

  /** A splittable piece is not cut, and the text behind it starts at depth zero again. */
  lemma PieceUncut(s: string, start: nat, p: string, pem: bool)
    requires Stands(s, start, p) && Splittable(p, pem) && (pem ==> Depth(s, start) == 0)
    ensures forall j :: start <= j < start + |p| ==> !Cut(s, j, pem)
    ensures start + |p| < |s| ==> Cut(s, start + |p|, pem) && (pem ==> Depth(s, start + |p| + 1) == 0)
  {
    var end := start + |p|;
    forall j | start <= j < end ensures !Cut(s, j, pem) {
      assert s[j] == s[start..end][j - start] == p[j - start];
      if pem {
        DepthShift(s, start, p, j - start);
        assert !Cut(p, j - start, true);
      }
    }
    if end < |s| && pem {
      DepthShift(s, start, p, |p|);
      NoMarkAtComma(s, end);
    }
  }

  /** Splitting undoes joining when no piece is cut by itself. */
  lemma {:induction false} PiecesOfJoin(s: string, start: nat, ps: seq<string>, pem: bool)
    requires start <= |s| && s[start..] == Join(ps, ',') && ps != [] && (pem ==> Depth(s, start) == 0)
    requires forall i :: 0 <= i < |ps| ==> Splittable(ps[i], pem)
    ensures PiecesFrom(s, start, start, pem) == ps
    decreases |ps|
  {
    JoinStands(s, start, ps);
    var end := start + |ps[0]|;
    PieceUncut(s, start, ps[0], pem);
    SkipUncut(s, start, start, end, pem);
    if |ps| > 1 {
      PiecesOfJoin(s, end + 1, ps[1..], pem);
    }
  }

  lemma JoinStands(s: string, start: nat, ps: seq<string>)
    requires start <= |s| && s[start..] == Join(ps, ',') && ps != []
    ensures var end := start + |ps[0]|;
            && Stands(s, start, ps[0]) && (end == |s| <==> |ps| == 1)
            && (|ps| > 1 ==> s[end + 1..] == Join(ps[1..], ','))
  {
    var end := start + |ps[0]|;
    if |ps| == 1 {
      assert s[start..] == ps[0];
      assert s[start..end] == s[start..];
    } else {
      assert s[end] == s[start..][|ps[0]|] == ',';
      assert s[start..end] == s[start..][..|ps[0]|] == ps[0];
      assert s[end + 1..] == s[start..][|ps[0]| + 1..] == Join(ps[1..], ',');
    }
  }

  lemma {:induction false} SkipUncut(s: string, start: nat, i: nat, end: nat, pem: bool)
    requires start <= i <= end <= |s|
    requires forall j :: i <= j < end ==> !Cut(s, j, pem)
    ensures PiecesFrom(s, start, i, pem) == PiecesFrom(s, start, end, pem)
    decreases end - i
  {
    if i < end {
      SkipUncut(s, start, i + 1, end, pem);
    }
  }

  lemma {:induction false} JoinContains(ps: seq<string>, m: string, i: nat)
    requires i < |ps| && Contains(ps[i], m)
    ensures Contains(Join(ps, ','), m)
  {
    if |ps| > 1 {
      if i == 0 {
        ContainsWithin("", ps[0], [','] + Join(ps[1..], ','), m);
        assert Join(ps, ',') == "" + ps[0] + ([','] + Join(ps[1..], ','));
      } else {
        JoinContains(ps[1..], m, i - 1);
        ContainsWithin(ps[0] + [','], Join(ps[1..], ','), "", m);
        assert Join(ps, ',') == ps[0] + [','] + Join(ps[1..], ',') + "";
      }
    }
  }

  lemma {:induction false} KeepVisible(ps: seq<string>)
    requires forall i :: 0 <= i < |ps| ==> Trim(ps[i]) != ""
    ensures Keep(ps) == ps
  {
    if ps != [] {
      KeepVisible(ps[1..]);
      assert ps == [ps[0]] + ps[1..];
    }
  }

  /** Entries that each read as a kid and a key build the map of those pairs. */
  lemma {:induction false} ParsePairs(read: string -> Pair, entries: seq<string>, es: seq<Entry>, acc: KeyMap)
    requires |entries| == |es| && DistinctKids(es)
    requires forall i :: 0 <= i < |es| ==> read(entries[i]) == Ok((es[i].kid, es[i].key))
    requires forall i :: 0 <= i < |es| ==> es[i].kid !in acc
    ensures ParseFrom(read, entries, acc) == Ok(acc + MapOf(es))
  {
    if es == [] {
      assert acc + MapOf(es) == acc;
    } else {
      var e, rest := es[0], es[1..];
      var next := acc[e.kid := e.key];
      ParsePairs(read, entries[1..], rest, next);
      KidAbsent(rest, e.kid);
      assert next + MapOf(rest) == acc + MapOf(es);
    }
  }

  lemma {:induction false} KidAbsent(es: seq<Entry>, kid: string)
    requires forall i :: 0 <= i < |es| ==> es[i].kid != kid
    ensures kid !in MapOf(es)
  {
    if es != [] {
      KidAbsent(es[1..], kid);
    }
  }

  /** A printed list splits into its lines, trimmed when it goes through the slow path. */
  lemma EntriesOfPrint(pem: string -> Option<bytes>, es: seq<Entry>)
    requires AllPrintable(pem, es) && es != []
    ensures Entries(Print(es)) == if Contains(Print(es), PEM_START) then TrimAll(Lines(es)) else Lines(es)
  {
    var lines, spec := Lines(es), Print(es);
    var slow := Contains(spec, PEM_START);
    forall i | 0 <= i < |es| ensures Trim(lines[i]) != "" && Splittable(lines[i], slow) {
      LinePlain(pem, es[i]);
      if es[i].form.InPem? {
        JoinContains(lines, PEM_START, i);
      }
    }
    assert spec[0..] == spec;
    PiecesOfJoin(spec, 0, lines, slow);
    KeepVisible(lines);
  }

  lemma LinesParse(pem: string -> Option<bytes>, es: seq<Entry>)
    requires AllPrintable(pem, es)
    ensures forall i :: 0 <= i < |es| ==> Reader(pem)(Lines(es)[i]) == Ok((es[i].kid, es[i].key))
    ensures forall i :: 0 <= i < |es| ==> Reader(pem)(TrimAll(Lines(es))[i]) == Ok((es[i].kid, es[i].key))
  {
    forall i | 0 <= i < |es|
      ensures Reader(pem)(Lines(es)[i]) == Ok((es[i].kid, es[i].key))
      ensures Reader(pem)(TrimAll(Lines(es))[i]) == Ok((es[i].kid, es[i].key))
    {
      LineParses(pem, es[i]);
      ParseOneOfTrim(pem, Line(es[i]));
    }
  }

  lemma PrintedEntries(pem: string -> Option<bytes>, es: seq<Entry>) returns (entries: seq<string>)
    requires AllPrintable(pem, es) && es != []
    ensures entries == Entries(Print(es)) && |entries| == |es|
    ensures forall i :: 0 <= i < |es| ==> Reader(pem)(entries[i]) == Ok((es[i].kid, es[i].key))
  {
    EntriesOfPrint(pem, es);
    LinesParse(pem, es);
    entries := Entries(Print(es));
  }

  /** Every key map survives printing in any order, with any spacing and any mix of hex, base64 and PEM. */
  lemma InlineRoundTrip(pem: string -> Option<bytes>, es: seq<Entry>)
    requires DistinctKids(es) && AllPrintable(pem, es)
    ensures Parse(pem, Print(es)) == Ok(MapOf(es))
  {
    if es == [] {
      EmptyList(pem);
    } else {
      var entries := PrintedEntries(pem, es);
      PairsParse(pem, Print(es), entries, es);
    }
  }

  lemma PairsParse(pem: string -> Option<bytes>, spec: string, entries: seq<string>, es: seq<Entry>)
    requires entries == Entries(spec) && |entries| == |es| && DistinctKids(es)
    requires forall i :: 0 <= i < |es| ==> Reader(pem)(entries[i]) == Ok((es[i].kid, es[i].key))
    ensures Parse(pem, spec) == Ok(MapOf(es))
  {
    ParsePairs(Reader(pem), entries, es, map[]);
    assert map[] + MapOf(es) == MapOf(es);
  }

  lemma EmptyList(pem: string -> Option<bytes>)
    ensures Parse(pem, "") == Ok(map[])
  {
    assert Pieces("", false) == [""];
  }
}
