/**
 The canonical JSON printer behind the consensus pin. Texts are sequences of UTF-16 code
 units; strings are escaped as JSON.stringify does, object keys are sorted by code unit.
 */
module CanonicalJson {
  import opened Common
  import opened Lexicographic

  type Unit = x: int | 0 <= x < 65536
  type Text = seq<Unit>

  const QUOTE: Unit := 34
  const COMMA: Unit := 44
  const COLON: Unit := 58
  const OPEN_ARRAY: Unit := 91
  const BACKSLASH: Unit := 92
  const CLOSE_ARRAY: Unit := 93
  const LETTER_U: Unit := 117
  const OPEN_OBJECT: Unit := 123
  const CLOSE_OBJECT: Unit := 125

  datatype Entry = Entry(key: Text, value: Json)

  /** A JSON value; a number is the text it prints as, an object keeps its own key order. */
  datatype Json = Null | Bool(b: bool) | Num(text: Text) | Str(s: Text) | Arr(items: seq<Json>) | Obj(entries: seq<Entry>)

  predicate NumberUnit(c: Unit) {
    48 <= c <= 57 || c == 45 || c == 43 || c == 46 || c == 101
  }

  predicate DistinctKeys(es: seq<Entry>) {
    forall i, j | 0 <= i < j < |es| :: es[i].key != es[j].key
  }

  /** What a JavaScript value can be: keys distinct, a number finite, so its text starts with a digit or a sign. */
  predicate WellFormed(v: Json) {
    match v
    case Num(t) => t != [] && (48 <= t[0] <= 57 || t[0] == 45) && forall i | 0 <= i < |t| :: NumberUnit(t[i])
    case Arr(items) => forall i | 0 <= i < |items| :: WellFormed(items[i])
    case Obj(es) => DistinctKeys(es) && forall i | 0 <= i < |es| :: WellFormed(es[i].value)
    case _ => true
  }

  // ---------- strings ----------

  predicate High(c: Unit) { 0xd800 <= c <= 0xdbff }

  predicate Low(c: Unit) { 0xdc00 <= c <= 0xdfff }

  /** A surrogate without its partner. */
  predicate Lone(s: Text, i: nat)
    requires i < |s|
  {
    (High(s[i]) && !(i + 1 < |s| && Low(s[i + 1]))) || (Low(s[i]) && !(i > 0 && High(s[i - 1])))
  }

  function HexDigit(d: int): Unit
    requires 0 <= d < 16
  {
    if d < 10 then 48 + d else 87 + d
  }

  function Hex4(c: Unit): Text {
    [HexDigit(c / 4096), HexDigit(c / 256 % 16), HexDigit(c / 16 % 16), HexDigit(c % 16)]
  }

  /** The short escapes: quote, backslash, and the five control letters. */
  function ShortEscape(c: Unit): Option<Unit> {
    if c == QUOTE || c == BACKSLASH then Some(c)
    else if c == 8 then Some(98)
    else if c == 9 then Some(116)
    else if c == 10 then Some(110)
    else if c == 12 then Some(102)
    else if c == 13 then Some(114)
    else None
  }

  /** One code unit as it appears between the quotes. */
  function Token(s: Text, i: nat): (r: Text)
    requires i < |s|
    ensures r != [] && r[0] != QUOTE
  {
    if ShortEscape(s[i]).Some? then [BACKSLASH, ShortEscape(s[i]).value]
    else if s[i] < 32 || Lone(s, i) then [BACKSLASH, LETTER_U] + Hex4(s[i])
    else [s[i]]
  }

  function EscapeFrom(s: Text, i: nat): Text
    requires i <= |s|
    decreases |s| - i
  {
    if i == |s| then [] else Token(s, i) + EscapeFrom(s, i + 1)
  }

  function Quoted(s: Text): Text {
    [QUOTE] + EscapeFrom(s, 0) + [QUOTE]
  }

  lemma HexDigitInjective(d: int, e: int)
    requires 0 <= d < 16 && 0 <= e < 16 && HexDigit(d) == HexDigit(e)
    ensures d == e
  {
  }

  lemma HexDigits(c: Unit)
    ensures c == 4096 * (c / 4096) + 256 * (c / 256 % 16) + 16 * (c / 16 % 16) + c % 16
  {
    assert c == 16 * (c / 16) + c % 16;
    assert c / 16 == 16 * (c / 256) + c / 16 % 16;
    assert c / 256 == 16 * (c / 4096) + c / 256 % 16;
  }

  lemma HexInjective(c: Unit, d: Unit)
    requires Hex4(c) == Hex4(d)
    ensures c == d
  {
    assert Hex4(c)[0] == Hex4(d)[0] && Hex4(c)[1] == Hex4(d)[1] && Hex4(c)[2] == Hex4(d)[2] && Hex4(c)[3] == Hex4(d)[3];
    HexDigitInjective(c / 4096, d / 4096);
    HexDigitInjective(c / 256 % 16, d / 256 % 16);
    HexDigitInjective(c / 16 % 16, d / 16 % 16);
    HexDigitInjective(c % 16, d % 16);
    HexDigits(c);
    HexDigits(d);
  }

  /** Tokens are a prefix code: where two texts agree, so do their first tokens and the units behind them. */
  lemma TokensAgree(s: Text, t: Text, i: nat, r: Text, q: Text)
    requires i < |s| && i < |t| && Token(s, i) + r == Token(t, i) + q
    ensures s[i] == t[i] && r == q
  {
    var a, b := Token(s, i), Token(t, i);
    assert (a + r)[0] == (b + q)[0];
    assert |a| > 1 && |b| > 1 ==> (a + r)[1] == (b + q)[1];
    assert |a| == |b|;
    assert a == (a + r)[..|a|] == (b + q)[..|b|] == b;
    assert r == (a + r)[|a|..] == (b + q)[|b|..] == q;
    if |a| == 6 {
      assert a[2..] == Hex4(s[i]) && b[2..] == Hex4(t[i]);
      HexInjective(s[i], t[i]);
    }
  }

  lemma {:induction false} EscapesAgree(s: Text, t: Text, i: nat, r: Text, q: Text)
    requires i <= |s| && i <= |t| && EscapeFrom(s, i) + [QUOTE] + r == EscapeFrom(t, i) + [QUOTE] + q
    ensures s[i..] == t[i..] && r == q
    decreases |s| - i
  {
    hide Token;
    FirstUnit(s, i, r);
    FirstUnit(t, i, q);
    if i == |s| {
      assert ([QUOTE] + r)[1..] == r && ([QUOTE] + q)[1..] == q;
      assert [] + [QUOTE] + r == [QUOTE] + r && [] + [QUOTE] + q == [QUOTE] + q;
    } else {
      var restS, restT := EscapeFrom(s, i + 1) + [QUOTE] + r, EscapeFrom(t, i + 1) + [QUOTE] + q;
      assert EscapeFrom(s, i) + [QUOTE] + r == Token(s, i) + restS;
      assert EscapeFrom(t, i) + [QUOTE] + q == Token(t, i) + restT;
      TokensAgree(s, t, i, restS, restT);
      EscapesAgree(s, t, i + 1, r, q);
      assert s[i..] == [s[i]] + s[i + 1..] && t[i..] == [t[i]] + t[i + 1..];
    }
  }

  /** No token starts with a quote, so a quote marks the end. */
  lemma FirstUnit(s: Text, i: nat, r: Text)
    requires i <= |s|
    ensures var x := EscapeFrom(s, i) + [QUOTE] + r; x != [] && (x[0] == QUOTE <==> i == |s|)
  {
    hide Token;
  }

  /** A quoted string ends itself, and tells which string it is. */
  lemma QuotedAgrees(s: Text, t: Text, r: Text, q: Text)
    requires Quoted(s) + r == Quoted(t) + q
    ensures s == t && r == q
  {
    hide EscapeFrom;
    var x, y := Quoted(s) + r, Quoted(t) + q;
    assert x[1..] == EscapeFrom(s, 0) + [QUOTE] + r && y[1..] == EscapeFrom(t, 0) + [QUOTE] + q;
    EscapesAgree(s, t, 0, r, q);
    assert s[0..] == s && t[0..] == t;
  }

  // ---------- sorting the keys ----------

  function Insert(e: Entry, es: seq<Entry>): seq<Entry> {
    if es == [] || Less(e.key, es[0].key) then [e] + es else [es[0]] + Insert(e, es[1..])
  }

  function SortByKey(es: seq<Entry>): seq<Entry> {
    if es == [] then [] else Insert(es[0], SortByKey(es[1..]))
  }

  predicate Ascending(es: seq<Entry>) {
    forall i, j | 0 <= i < j < |es| :: Less(es[i].key, es[j].key)
  }

  lemma {:induction false} InsertContents(e: Entry, es: seq<Entry>)
    ensures multiset(Insert(e, es)) == multiset{e} + multiset(es)
  {
    if es != [] && !Less(e.key, es[0].key) {
      InsertContents(e, es[1..]);
      assert es == [es[0]] + es[1..];
    }
  }

  lemma {:induction false} InsertAscends(e: Entry, es: seq<Entry>)
    requires Ascending(es) && forall i | 0 <= i < |es| :: es[i].key != e.key
    ensures Ascending(Insert(e, es))
  {
    if es == [] {
    } else if Less(e.key, es[0].key) {
      forall i | 0 <= i < |es| ensures Less(e.key, es[i].key) {
        if i > 0 { LessTransitive(e.key, es[0].key, es[i].key); }
      }
    } else {
      LessTotal(e.key, es[0].key);
      var rest := Insert(e, es[1..]);
      InsertAscends(e, es[1..]);
      InsertContents(e, es[1..]);
      forall i | 0 <= i < |rest| ensures Less(es[0].key, rest[i].key) {
        assert rest[i] in multiset(rest);
        if rest[i] != e {
          assert rest[i] in es[1..];
          var j :| 0 <= j < |es[1..]| && es[1..][j] == rest[i];
          assert es[j + 1] == rest[i];
        }
      }
    }
  }

  lemma {:induction false} SortContents(es: seq<Entry>)
    ensures multiset(SortByKey(es)) == multiset(es)
  {
    if es != [] {
      SortContents(es[1..]);
      InsertContents(es[0], SortByKey(es[1..]));
      assert es == [es[0]] + es[1..];
    }
  }

  lemma {:induction false} SortAscends(es: seq<Entry>)
    requires DistinctKeys(es)
    ensures Ascending(SortByKey(es))
  {
    if es != [] {
      var rest := SortByKey(es[1..]);
      SortAscends(es[1..]);
      SortContents(es[1..]);
      forall i | 0 <= i < |rest| ensures rest[i].key != es[0].key {
        assert rest[i] in multiset(rest);
        assert rest[i] in es[1..];
        var j :| 0 <= j < |es[1..]| && es[1..][j] == rest[i];
        assert es[j + 1] == rest[i];
      }
      InsertAscends(es[0], rest);
    }
  }

  /** There is one ascending order of the same entries. */
  lemma {:induction false} AscendingIsUnique(a: seq<Entry>, b: seq<Entry>)
    requires Ascending(a) && Ascending(b) && multiset(a) == multiset(b)
    ensures a == b
  {
    if a == [] {
      assert |multiset(b)| == 0;
    } else {
      assert |multiset(b)| == |a|;
      FirstIsLeast(a, b);
      assert a == [a[0]] + a[1..] && b == [b[0]] + b[1..];
      assert multiset(a[1..]) == multiset(a) - multiset{a[0]};
      AscendingIsUnique(a[1..], b[1..]);
    }
  }

  lemma FirstIsLeast(a: seq<Entry>, b: seq<Entry>)
    requires a != [] && b != [] && Ascending(a) && Ascending(b) && multiset(a) == multiset(b)
    ensures a[0] == b[0]
  {
    assert a[0] in multiset(b) && b[0] in multiset(a);
    var i :| 0 <= i < |b| && b[i] == a[0];
    var j :| 0 <= j < |a| && a[j] == b[0];
    if i > 0 && j > 0 {
      LessTransitive(a[0].key, b[0].key, a[0].key);
      LessIrreflexive(a[0].key);
    }
  }

  // ---------- the printer ----------

  /** The value with every object's keys in sorted order. */
  function Canon(v: Json): Json {
    match v
    case Arr(items) => Arr(CanonItems(items))
    case Obj(es) => Obj(SortByKey(CanonEntries(es)))
    case _ => v
  }

  function CanonItems(items: seq<Json>): (r: seq<Json>)
    ensures |r| == |items| && forall i | 0 <= i < |r| :: r[i] == Canon(items[i])
  {
    seq(|items|, i requires 0 <= i < |items| => Canon(items[i]))
  }

  function CanonEntries(es: seq<Entry>): (r: seq<Entry>)
    ensures |r| == |es| && forall i | 0 <= i < |r| :: r[i] == Entry(es[i].key, Canon(es[i].value))
  {
    seq(|es|, i requires 0 <= i < |es| => Entry(es[i].key, Canon(es[i].value)))
  }

  /** Prints a value whose keys are in order already. */
  function Render(v: Json): Text {
    match v
    case Null => [110, 117, 108, 108]
    case Bool(b) => if b then [116, 114, 117, 101] else [102, 97, 108, 115, 101]
    case Num(t) => t
    case Str(s) => Quoted(s)
    case Arr(items) => [OPEN_ARRAY] + RenderItems(items, true)
    case Obj(es) => [OPEN_OBJECT] + RenderEntries(es, true)
  }

  /** The items from here on, a comma before each but the first, then the closing bracket. */
  function RenderItems(items: seq<Json>, first: bool): Text {
    if items == [] then [CLOSE_ARRAY]
    else (if first then [] else [COMMA]) + Render(items[0]) + RenderItems(items[1..], false)
  }

  function RenderEntries(es: seq<Entry>, first: bool): Text {
    if es == [] then [CLOSE_OBJECT]
    else (if first then [] else [COMMA]) + Quoted(es[0].key) + [COLON] + Render(es[0].value) + RenderEntries(es[1..], false)
  }

  function CanonicalJson(v: Json): Text {
    Render(Canon(v))
  }

  // ---------- equal texts, equal values ----------

  /** What may follow a value: nothing, a comma or a closing bracket. */
  predicate Ends(r: Text) {
    r == [] || r[0] == COMMA || r[0] == CLOSE_ARRAY || r[0] == CLOSE_OBJECT
  }

  /** The kind of a value shows in its first unit. */
  function Head(v: Json): Unit
    requires WellFormed(v)
  {
    match v
    case Null => 110
    case Bool(b) => if b then 116 else 102
    case Num(t) => t[0]
    case Str(_) => QUOTE
    case Arr(_) => OPEN_ARRAY
    case Obj(_) => OPEN_OBJECT
  }

  lemma RenderHead(v: Json)
    requires WellFormed(v)
    ensures Render(v) != [] && Render(v)[0] == Head(v)
  {
  }

  /** A number's text is followed by no unit of its own alphabet, so it ends where it must. */
  lemma {:induction false} NumbersAgree(a: Text, b: Text, r: Text, q: Text)
    requires a + r == b + q && Ends(r) && Ends(q)
    requires (forall i | 0 <= i < |a| :: NumberUnit(a[i])) && (forall i | 0 <= i < |b| :: NumberUnit(b[i]))
    ensures a == b && r == q
  {
    NotLonger(a, b, r, q);
    NotLonger(b, a, q, r);
    assert a == (a + r)[..|a|] && b == (b + q)[..|b|];
    assert r == (a + r)[|a|..] && q == (b + q)[|b|..];
  }

  lemma NotLonger(a: Text, b: Text, r: Text, q: Text)
    requires a + r == b + q && Ends(r) && forall i | 0 <= i < |b| :: NumberUnit(b[i])
    ensures |b| <= |a|
  {
    if r == [] {
      assert |a + r| == |a| && |b + q| == |b| + |q|;
    } else {
      assert (a + r)[|a|] == r[0] && !NumberUnit(r[0]);
      assert forall i | 0 <= i < |b| :: (b + q)[i] == b[i];
    }
  }

  /** Printed values followed by what may follow a value agree only when they are the same value, ending at the same place. */
  lemma {:induction false} RendersAgree(v: Json, w: Json, r: Text, q: Text)
    requires WellFormed(v) && WellFormed(w) && Ends(r) && Ends(q) && Render(v) + r == Render(w) + q
    ensures v == w && r == q
    decreases v, 0
  {
    SameHead(v, w, r, q);
    match v {
      case Num(t) => NumbersAgree(t, w.text, r, q);
      case Str(s) => QuotedAgrees(s, w.s, r, q);
      case Arr(items) =>
        ArrTail(items, r);
        ArrTail(w.items, q);
        ItemsAgree(items, w.items, true, r, q);
      case Obj(es) =>
        ObjTail(es, r);
        ObjTail(w.entries, q);
        EntriesAgree(es, w.entries, true, r, q);
      case _ => Cancel(Render(v), r, q);
    }
  }

  /** Values whose texts start alike are of one kind. */
  lemma SameHead(v: Json, w: Json, r: Text, q: Text)
    requires WellFormed(v) && WellFormed(w) && Render(v) + r == Render(w) + q
    ensures Head(v) == Head(w)
    ensures v.Num? == w.Num? && v.Str? == w.Str? && v.Arr? == w.Arr? && v.Obj? == w.Obj? && (v.Null? || v.Bool? ==> v == w)
  {
    RenderHead(v);
    RenderHead(w);
    assert (Render(v) + r)[0] == Head(v) && (Render(w) + q)[0] == Head(w);
  }

  lemma ArrTail(items: seq<Json>, r: Text)
    ensures (Render(Arr(items)) + r)[1..] == RenderItems(items, true) + r
  {
  }

  lemma ObjTail(es: seq<Entry>, r: Text)
    ensures (Render(Obj(es)) + r)[1..] == RenderEntries(es, true) + r
  {
  }

  lemma Cancel(p: Text, x: Text, y: Text)
    requires p + x == p + y
    ensures x == y
  {
    assert x == (p + x)[|p|..] && y == (p + y)[|p|..];
  }

  predicate ItemsFormed(items: seq<Json>) {
    forall i | 0 <= i < |items| :: WellFormed(items[i])
  }

  lemma ItemsHead(items: seq<Json>, first: bool, r: Text)
    requires ItemsFormed(items)
    ensures var x := RenderItems(items, first) + r;
            x != [] && (items == [] ==> x[0] == CLOSE_ARRAY)
            && (items != [] ==> x[0] == if first then Head(items[0]) else COMMA)
  {
    if items != [] { RenderHead(items[0]); }
  }

  lemma ItemsStep(a: seq<Json>, first: bool, r: Text)
    requires a != []
    ensures var comma: Text := if first then [] else [COMMA];
            RenderItems(a, first) + r == comma + (Render(a[0]) + (RenderItems(a[1..], false) + r))
  {
    hide Render;
  }

  lemma {:induction false} ItemsAgree(a: seq<Json>, b: seq<Json>, first: bool, r: Text, q: Text)
    requires ItemsFormed(a) && ItemsFormed(b) && RenderItems(a, first) + r == RenderItems(b, first) + q
    ensures a == b && r == q
    decreases a, 1
  {
    hide Render;
    ItemsHead(a, first, r);
    ItemsHead(b, first, q);
    if a == [] {
      assert ([CLOSE_ARRAY] + r)[1..] == r && ([CLOSE_ARRAY] + q)[1..] == q;
    } else {
      var restA, restB := RenderItems(a[1..], false) + r, RenderItems(b[1..], false) + q;
      ItemsStep(a, first, r);
      ItemsStep(b, first, q);
      ItemsHead(a[1..], false, r);
      ItemsHead(b[1..], false, q);
      hide RenderItems;
      Cancel(if first then [] else [COMMA], Render(a[0]) + restA, Render(b[0]) + restB);
      RendersAgree(a[0], b[0], restA, restB);
      ItemsAgree(a[1..], b[1..], false, r, q);
      assert a == [a[0]] + a[1..] && b == [b[0]] + b[1..];
    }
  }

  predicate EntriesFormed(es: seq<Entry>) {
    forall i | 0 <= i < |es| :: WellFormed(es[i].value)
  }

  lemma EntriesHead(es: seq<Entry>, first: bool, r: Text)
    ensures var x := RenderEntries(es, first) + r;
            x != [] && (es == [] ==> x[0] == CLOSE_OBJECT) && (es != [] ==> x[0] == if first then QUOTE else COMMA)
  {
  }

  lemma {:induction false} EntriesAgree(a: seq<Entry>, b: seq<Entry>, first: bool, r: Text, q: Text)
    requires EntriesFormed(a) && EntriesFormed(b) && RenderEntries(a, first) + r == RenderEntries(b, first) + q
    ensures a == b && r == q
    decreases a, 1
  {
    hide Quoted; hide Render;
    EntriesHead(a, first, r);
    EntriesHead(b, first, q);
    if a == [] {
      assert ([CLOSE_OBJECT] + r)[1..] == r && ([CLOSE_OBJECT] + q)[1..] == q;
    } else {
      var restA, restB := RenderEntries(a[1..], false) + r, RenderEntries(b[1..], false) + q;
      FirstEntry(a, first, r);
      FirstEntry(b, first, q);
      EntriesHead(a[1..], false, r);
      EntriesHead(b[1..], false, q);
      hide RenderEntries;
      var comma: Text := if first then [] else [COMMA];
      var valueA, valueB := Render(a[0].value) + restA, Render(b[0].value) + restB;
      Cancel(comma, Quoted(a[0].key) + ([COLON] + valueA), Quoted(b[0].key) + ([COLON] + valueB));
      QuotedAgrees(a[0].key, b[0].key, [COLON] + valueA, [COLON] + valueB);
      Cancel([COLON], valueA, valueB);
      RendersAgree(a[0].value, b[0].value, restA, restB);
      EntriesAgree(a[1..], b[1..], false, r, q);
      assert a == [a[0]] + a[1..] && b == [b[0]] + b[1..];
    }
  }

  lemma FirstEntry(es: seq<Entry>, first: bool, r: Text)
    requires es != []
    ensures RenderEntries(es, first) + r
            == (if first then [] else [COMMA])
               + (Quoted(es[0].key) + ([COLON] + (Render(es[0].value) + (RenderEntries(es[1..], false) + r))))
  {
    hide Quoted; hide Render;
  }

  // ---------- equal up to key order ----------

  /** Equal values, were object keys in no order: the same keys, and under each the same value. */
  ghost predicate Same(v: Json, w: Json) {
    match v
    case Arr(items) => w.Arr? && |items| == |w.items| && forall i | 0 <= i < |items| :: Same(items[i], w.items[i])
    case Obj(es) => w.Obj? && |es| == |w.entries| && forall i | 0 <= i < |es| :: HasMatch(es[i], w.entries)
    case _ => v == w
  }

  ghost predicate HasMatch(e: Entry, es: seq<Entry>)
    decreases e, 1
  {
    exists j :: SameAt(e, es, j)
  }

  ghost predicate SameAt(e: Entry, es: seq<Entry>, j: int)
    decreases e, 0
  {
    0 <= j < |es| && e.key == es[j].key && Same(e.value, es[j].value)
  }

  lemma {:induction false} CanonFormed(v: Json)
    requires WellFormed(v)
    ensures WellFormed(Canon(v))
  {
    match v {
      case Arr(items) =>
        forall i | 0 <= i < |items| ensures WellFormed(Canon(items[i])) { CanonFormed(items[i]); }
      case Obj(es) =>
        var ces := CanonEntries(es);
        forall i | 0 <= i < |es| ensures WellFormed(ces[i].value) { CanonFormed(es[i].value); }
        SortAscends(ces);
        SortContents(ces);
        var sorted := SortByKey(ces);
        forall i, j | 0 <= i < j < |sorted| ensures sorted[i].key != sorted[j].key { LessIrreflexive(sorted[i].key); }
        forall i | 0 <= i < |sorted| ensures WellFormed(sorted[i].value) {
          assert sorted[i] in multiset(ces);
        }
      case _ =>
    }
  }

  /** Lists of distinct keys of one length, each entry of one in the other, sort alike. */
  lemma SameEntriesSameBag(a: seq<Entry>, b: seq<Entry>)
    requires DistinctKeys(a) && DistinctKeys(b) && |a| == |b| && forall e | e in a :: e in b
    ensures multiset(a) == multiset(b)
  {
    forall e ensures multiset(a)[e] <= multiset(b)[e] {
      CountInDistinct(a, e);
      CountInDistinct(b, e);
    }
    SameSizeSameBag(multiset(a), multiset(b));
  }

  lemma SameSizeSameBag(a: multiset<Entry>, b: multiset<Entry>)
    requires (forall e :: a[e] <= b[e]) && |a| == |b|
    ensures a == b
  {
    assert b == a + (b - a);
    assert |b - a| == 0;
  }

  lemma {:induction false} CanonDecides(v: Json, w: Json)
    requires WellFormed(v) && WellFormed(w)
    ensures Same(v, w) <==> Canon(v) == Canon(w)
  {
    match v {
      case Arr(items) =>
        if w.Arr? && |items| == |w.items| {
          forall i | 0 <= i < |items| ensures Same(items[i], w.items[i]) <==> Canon(items[i]) == Canon(w.items[i]) {
            CanonDecides(items[i], w.items[i]);
          }
          assert (forall i | 0 <= i < |items| :: Canon(items[i]) == Canon(w.items[i])) <==> CanonItems(items) == CanonItems(w.items);
        } else {
          assert w.Arr? ==> |CanonItems(items)| != |CanonItems(w.items)|;
        }
      case Obj(es) =>
        if w.Obj? {
          forall i, j | 0 <= i < |es| && 0 <= j < |w.entries|
            ensures SameAt(es[i], w.entries, j) <==> CanonEntries(es)[i] == CanonEntries(w.entries)[j]
          {
            CanonDecides(es[i].value, w.entries[j].value);
          }
          if Matched(es, w.entries) { MatchedSortAlike(es, w.entries); }
          if SortByKey(CanonEntries(es)) == SortByKey(CanonEntries(w.entries)) { SortedAlikeMatch(es, w.entries); }
          SameObjects(es, w.entries);
        }
      case _ =>
    }
  }

  ghost predicate Matched(es: seq<Entry>, fs: seq<Entry>) {
    |es| == |fs| && forall i | 0 <= i < |es| :: HasMatch(es[i], fs)
  }

  lemma SameObjects(es: seq<Entry>, fs: seq<Entry>)
    ensures Same(Obj(es), Obj(fs)) <==> Matched(es, fs)
  {
  }

  lemma BagMember(a: seq<Entry>, b: seq<Entry>, i: nat) returns (j: nat)
    requires multiset(a) == multiset(b) && i < |a|
    ensures j < |b| && b[j] == a[i]
  {
    assert a[i] in multiset(b);
    j :| 0 <= j < |b| && b[j] == a[i];
  }

  lemma MatchedSortAlike(es: seq<Entry>, fs: seq<Entry>)
    requires DistinctKeys(es) && DistinctKeys(fs) && Matched(es, fs)
    requires forall i, j | 0 <= i < |es| && 0 <= j < |fs| :: SameAt(es[i], fs, j) <==> CanonEntries(es)[i] == CanonEntries(fs)[j]
    ensures SortByKey(CanonEntries(es)) == SortByKey(CanonEntries(fs))
  {
    hide SortByKey; hide Canon; hide Same;
    var a, b := CanonEntries(es), CanonEntries(fs);
    forall e | e in a ensures e in b {
      var i :| 0 <= i < |a| && a[i] == e;
      assert HasMatch(es[i], fs);
      var j :| SameAt(es[i], fs, j);
      assert b[j] == e;
    }
    SameEntriesSameBag(a, b);
    SortContents(a);
    SortContents(b);
    SortAscends(a);
    SortAscends(b);
    AscendingIsUnique(SortByKey(a), SortByKey(b));
  }

  lemma SortedAlikeMatch(es: seq<Entry>, fs: seq<Entry>)
    requires SortByKey(CanonEntries(es)) == SortByKey(CanonEntries(fs))
    requires forall i, j | 0 <= i < |es| && 0 <= j < |fs| :: SameAt(es[i], fs, j) <==> CanonEntries(es)[i] == CanonEntries(fs)[j]
    ensures Matched(es, fs)
  {
    SortContents(CanonEntries(es));
    SortContents(CanonEntries(fs));
    hide SortByKey; hide Canon; hide Same; hide SameAt; hide CanonEntries;
    BagLength(CanonEntries(es), CanonEntries(fs));
    forall i | 0 <= i < |es| ensures HasMatch(es[i], fs) {
      var j := BagMember(CanonEntries(es), CanonEntries(fs), i);
      assert SameAt(es[i], fs, j);
    }
  }

  lemma BagLength(a: seq<Entry>, b: seq<Entry>)
    requires multiset(a) == multiset(b)
    ensures |a| == |b|
  {
    assert |a| == |multiset(a)| && |b| == |multiset(b)|;
  }

  /**
   Two values print the same canonical text exactly when they are equal up to the order of
   object keys; so equal preimages of the consensus hash mean equal consensus subsets.
   */
  lemma CanonicalJsonDecides(v: Json, w: Json)
    requires WellFormed(v) && WellFormed(w)
    ensures CanonicalJson(v) == CanonicalJson(w) <==> Same(v, w)
  {
    CanonDecides(v, w);
    CanonFormed(v);
    CanonFormed(w);
    if CanonicalJson(v) == CanonicalJson(w) {
      assert Render(Canon(v)) + [] == Render(Canon(w)) + [];
      RendersAgree(Canon(v), Canon(w), [], []);
    }
  }
}
