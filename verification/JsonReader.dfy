/**
 A reader of JSON texts, from the grammar of RFC 8259, that knows nothing of the printer; and
 that what the printer writes reads back as the value it was given, its keys in order.
 */
module JsonReader {
  import opened Common
  import opened Lexicographic
  import opened CanonicalJson

  // ---------- strings ----------

  function HexValue(c: Unit): Option<nat> {
    if 48 <= c <= 57 then Some(c - 48) else if 97 <= c <= 102 then Some(c - 87) else if 65 <= c <= 70 then Some(c - 55) else None
  }

  function ReadHex(x: Text): Option<Unit>
    requires |x| >= 4
  {
    match (HexValue(x[0]), HexValue(x[1]), HexValue(x[2]), HexValue(x[3]))
    case (Some(a), Some(b), Some(c), Some(d)) => Some(4096 * a + 256 * b + 16 * c + d)
    case _ => None
  }

  /** The unit a backslash and this letter stand for. */
  function Unescaped(c: Unit): Option<Unit> {
    if c == 34 || c == 47 || c == 92 then Some(c)
    else if c == 98 then Some(8)
    else if c == 102 then Some(12)
    else if c == 110 then Some(10)
    else if c == 114 then Some(13)
    else if c == 116 then Some(9)
    else None
  }

  /** One unit of a string and the rest; None at a quote, a bare control unit or a malformed escape. */
  function ReadUnit(x: Text): (r: Option<(Unit, Text)>)
    requires x != []
    ensures r.Some? ==> |r.value.1| < |x|
  {
    if x[0] == 92 then
      if |x| >= 6 && x[1] == 117 then match ReadHex(x[2..6]) { case None => None case Some(c) => Some((c, x[6..])) }
      else if |x| >= 2 && Unescaped(x[1]).Some? then Some((Unescaped(x[1]).value, x[2..]))
      else None
    else if x[0] == 34 || x[0] < 32 then None
    else Some((x[0], x[1..]))
  }

  /** The units up to the closing quote, and what follows it. */
  function ReadString(x: Text): (r: Option<(Text, Text)>)
    ensures r.Some? ==> |r.value.1| < |x|
    decreases |x|
  {
    if x == [] then None
    else if x[0] == 34 then Some(([], x[1..]))
    else
      match ReadUnit(x)
      case None => None
      case Some((c, rest)) => match ReadString(rest) { case None => None case Some((s, after)) => Some(([c] + s, after)) }
  }

  lemma HexReads(c: Unit, rest: Text)
    ensures |Hex4(c) + rest| >= 4 && ReadHex((Hex4(c) + rest)[..4]) == Some(c)
  {
    HexDigits(c);
    assert (Hex4(c) + rest)[..4] == Hex4(c);
    HexDigitReads(c / 4096);
    HexDigitReads(c / 256 % 16);
    HexDigitReads(c / 16 % 16);
    HexDigitReads(c % 16);
    hide HexDigit; hide HexValue;
  }

  lemma HexDigitReads(d: int)
    requires 0 <= d < 16
    ensures HexValue(HexDigit(d)) == Some(d)
  {
  }

  lemma TokenReads(s: Text, i: nat, rest: Text)
    requires i < |s|
    ensures var x := Token(s, i) + rest; x != [] && x[0] != 34 && ReadUnit(x) == Some((s[i], rest))
  {
    var x := Token(s, i) + rest;
    HexReads(s[i], rest);
    if ShortEscape(s[i]).Some? {
      assert x[2..] == rest;
    } else if s[i] < 32 || Lone(s, i) {
      assert x[2..6] == Hex4(s[i]) && x[6..] == rest && (Hex4(s[i]) + rest)[..4] == Hex4(s[i]);
      hide Hex4;
    } else {
      assert x[1..] == rest;
    }
  }

  /** A printed string reads back, wherever it stands. */
  lemma {:induction false} EscapedReads(s: Text, i: nat, rest: Text)
    requires i <= |s|
    ensures ReadString(EscapeFrom(s, i) + [QUOTE] + rest) == Some((s[i..], rest))
    decreases |s| - i
  {
    if i == |s| {
      assert EscapeFrom(s, i) + [QUOTE] + rest == [QUOTE] + rest && ([QUOTE] + rest)[1..] == rest;
    } else {
      var more := EscapeFrom(s, i + 1) + [QUOTE] + rest;
      assert EscapeFrom(s, i) + [QUOTE] + rest == Token(s, i) + more;
      TokenReads(s, i, more);
      EscapedReads(s, i + 1, rest);
      assert s[i..] == [s[i]] + s[i + 1..];
      hide Token; hide ReadUnit;
    }
  }

  // ---------- values ----------

  function NumberLength(x: Text): (n: nat)
    ensures n <= |x|
  {
    if x == [] || !NumberUnit(x[0]) then 0 else 1 + NumberLength(x[1..])
  }

  /** One value and what follows it; a number is read as far as its alphabet goes. */
  function ReadValue(x: Text): (r: Option<(Json, Text)>)
    ensures r.Some? ==> |r.value.1| < |x|
    decreases |x|, 0
  {
    if x == [] then None
    else if x[0] == 34 then match ReadString(x[1..]) { case None => None case Some((s, rest)) => Some((Str(s), rest)) }
    else if x[0] == 91 then match ReadItems(x[1..], true) { case None => None case Some((items, rest)) => Some((Arr(items), rest)) }
    else if x[0] == 123 then match ReadEntries(x[1..], true) { case None => None case Some((es, rest)) => Some((Obj(es), rest)) }
    else if |x| >= 4 && x[..4] == [110, 117, 108, 108] then Some((Null, x[4..]))
    else if |x| >= 4 && x[..4] == [116, 114, 117, 101] then Some((Bool(true), x[4..]))
    else if |x| >= 5 && x[..5] == [102, 97, 108, 115, 101] then Some((Bool(false), x[5..]))
    else if 48 <= x[0] <= 57 || x[0] == 45 then Some((Num(x[..NumberLength(x)]), x[NumberLength(x)..]))
    else None
  }

  /** Items up to the closing bracket, each but the first behind a comma. */
  function ReadItems(x: Text, first: bool): (r: Option<(seq<Json>, Text)>)
    ensures r.Some? ==> |r.value.1| < |x|
    decreases |x|, 1
  {
    if x == [] then None
    else if x[0] == 93 then Some(([], x[1..]))
    else if !first && x[0] != 44 then None
    else
      match ReadValue(if first then x else x[1..])
      case None => None
      case Some((v, rest)) => match ReadItems(rest, false) { case None => None case Some((vs, after)) => Some(([v] + vs, after)) }
  }

  /** A key and its value, a colon between them. */
  function ReadEntry(x: Text): (r: Option<(Entry, Text)>)
    ensures r.Some? ==> |r.value.1| < |x|
    decreases |x|, 1
  {
    if x == [] || x[0] != 34 then None
    else
      match ReadString(x[1..])
      case None => None
      case Some((key, rest)) =>
        if rest == [] || rest[0] != 58 then None
        else match ReadValue(rest[1..]) { case None => None case Some((v, after)) => Some((Entry(key, v), after)) }
  }

  function ReadEntries(x: Text, first: bool): (r: Option<(seq<Entry>, Text)>)
    ensures r.Some? ==> |r.value.1| < |x|
    decreases |x|, 2
  {
    if x == [] then None
    else if x[0] == 125 then Some(([], x[1..]))
    else if !first && x[0] != 44 then None
    else
      match ReadEntry(if first then x else x[1..])
      case None => None
      case Some((e, rest)) => match ReadEntries(rest, false) { case None => None case Some((es, after)) => Some(([e] + es, after)) }
  }

  lemma {:induction false} NumberReads(t: Text, rest: Text)
    requires (forall i | 0 <= i < |t| :: NumberUnit(t[i])) && Ends(rest)
    ensures NumberLength(t + rest) == |t|
  {
    if t == [] {
      assert t + rest == rest;
    } else {
      assert (t + rest)[1..] == t[1..] + rest;
      NumberReads(t[1..], rest);
    }
  }

  lemma NumberReadsBack(t: Text, rest: Text)
    requires WellFormed(Num(t)) && Ends(rest)
    ensures ReadValue(t + rest) == Some((Num(t), rest))
  {
    var x := t + rest;
    NumberReads(t, rest);
    assert x[..|t|] == t && x[|t|..] == rest && x[0] == t[0];
    hide ReadString; hide ReadItems; hide ReadEntries;
    assert |x| >= 4 ==> x[..4][0] == x[0];
    assert |x| >= 5 ==> x[..5][0] == x[0];
  }

  lemma LiteralReadsBack(v: Json, rest: Text)
    requires v.Null? || v.Bool?
    ensures ReadValue(Render(v) + rest) == Some((v, rest))
  {
    var x := Render(v) + rest;
    assert x[..|Render(v)|] == Render(v) && x[|Render(v)|..] == rest;
    hide ReadString; hide ReadItems; hide ReadEntries;
    if v.Bool? { assert x[..4][0] == x[0] == Render(v)[0]; }
  }

  lemma StringReadsBack(s: Text, rest: Text)
    ensures ReadValue(Quoted(s) + rest) == Some((Str(s), rest))
  {
    hide EscapeFrom; hide ReadString; hide ReadItems; hide ReadEntries;
    EscapedReads(s, 0, rest);
    var x := Quoted(s) + rest;
    assert x[0] == QUOTE && x[1..] == EscapeFrom(s, 0) + [QUOTE] + rest;
    assert s[0..] == s;
    hide Quoted;
  }

  lemma ArrayReadsBack(items: seq<Json>, rest: Text)
    requires ReadItems(RenderItems(items, true) + rest, true) == Some((items, rest))
    ensures ReadValue(Render(Arr(items)) + rest) == Some((Arr(items), rest))
  {
    ArrTail(items, rest);
    hide ReadString; hide ReadItems; hide ReadEntries; hide RenderItems;
  }

  lemma ObjectReadsBack(es: seq<Entry>, rest: Text)
    requires ReadEntries(RenderEntries(es, true) + rest, true) == Some((es, rest))
    ensures ReadValue(Render(Obj(es)) + rest) == Some((Obj(es), rest))
  {
    ObjTail(es, rest);
    hide ReadString; hide ReadItems; hide ReadEntries; hide RenderEntries;
  }

  /** What the printer writes for a value reads back as that value, whatever may follow. */
  lemma {:induction false} ReadsBack(v: Json, rest: Text)
    requires WellFormed(v) && Ends(rest)
    ensures ReadValue(Render(v) + rest) == Some((v, rest))
    decreases v, 0
  {
    hide ReadValue; hide ReadItems; hide ReadEntries; hide RenderItems; hide RenderEntries; hide Quoted; hide Ends;
    match v {
      case Str(s) => StringReadsBack(s, rest);
      case Num(t) => NumberReadsBack(t, rest);
      case Arr(items) =>
        ItemsRead(items, true, rest);
        ArrayReadsBack(items, rest);
      case Obj(es) =>
        EntriesRead(es, true, rest);
        ObjectReadsBack(es, rest);
      case _ => LiteralReadsBack(v, rest);
    }
  }

  lemma OneItemRead(x: Text, first: bool, v: Json, rest: Text, items: seq<Json>, after: Text)
    requires x != [] && x[0] != 93 && (!first ==> x[0] == 44)
    requires ReadValue(if first then x else x[1..]) == Some((v, rest)) && ReadItems(rest, false) == Some((items, after))
    ensures ReadItems(x, first) == Some(([v] + items, after))
  {
    hide ReadValue;
  }

  /** No value starts like the end of a list. */
  lemma ItemsFirst(items: seq<Json>)
    requires ItemsFormed(items) && items != []
    ensures WellFormed(items[0]) && ItemsFormed(items[1..]) && Head(items[0]) != CLOSE_ARRAY
  {
  }

  lemma {:induction false} ItemsRead(items: seq<Json>, first: bool, rest: Text)
    requires ItemsFormed(items) && Ends(rest)
    ensures ReadItems(RenderItems(items, first) + rest, first) == Some((items, rest))
    decreases items, 1
  {
    var x := RenderItems(items, first) + rest;
    if items == [] {
      assert x[1..] == rest;
    } else {
      hide Render; hide ReadValue; hide ReadItems; hide RenderItems; hide ItemsFormed; hide WellFormed; hide Head;
      var more := RenderItems(items[1..], false) + rest;
      ItemsFirst(items);
      ItemsStep(items, first, rest);
      ItemsHead(items, first, rest);
      ItemsHead(items[1..], false, rest);
      assert (if first then x else x[1..]) == Render(items[0]) + more;
      ReadsBack(items[0], more);
      ItemsRead(items[1..], false, rest);
      OneItemRead(x, first, items[0], more, items[1..], rest);
      assert items == [items[0]] + items[1..];
    }
  }

  lemma OneEntryRead(x: Text, first: bool, e: Entry, rest: Text, es: seq<Entry>, after: Text)
    requires x != [] && x[0] != 125 && (!first ==> x[0] == 44)
    requires ReadEntry(if first then x else x[1..]) == Some((e, rest)) && ReadEntries(rest, false) == Some((es, after))
    ensures ReadEntries(x, first) == Some(([e] + es, after))
  {
    hide ReadEntry;
  }

  lemma {:induction false} EntriesRead(es: seq<Entry>, first: bool, rest: Text)
    requires EntriesFormed(es) && Ends(rest)
    ensures ReadEntries(RenderEntries(es, first) + rest, first) == Some((es, rest))
    decreases es, 1
  {
    var x := RenderEntries(es, first) + rest;
    if es == [] {
      assert x[1..] == rest;
    } else {
      hide Render; hide ReadValue; hide ReadEntries; hide RenderEntries; hide ReadEntry; hide Quoted;
      var more := RenderEntries(es[1..], false) + rest;
      FirstEntry(es, first, rest);
      EntriesHead(es, first, rest);
      EntriesHead(es[1..], false, rest);
      EntriesRead(es[1..], false, rest);
      ReadsBack(es[0].value, more);
      var entry := Quoted(es[0].key) + ([COLON] + (Render(es[0].value) + more));
      EntryReads(es[0], more);
      assert (if first then x else x[1..]) == entry;
      OneEntryRead(x, first, es[0], more, es[1..], rest);
      assert es == [es[0]] + es[1..];
    }
  }

  lemma EntryReads(e: Entry, more: Text)
    requires ReadValue(Render(e.value) + more) == Some((e.value, more))
    ensures var x := Quoted(e.key) + ([COLON] + (Render(e.value) + more));
            x != [] && x[0] == QUOTE && ReadEntry(x) == Some((e, more))
  {
    hide ReadValue; hide Render; hide EscapeFrom; hide ReadString;
    var value := [COLON] + (Render(e.value) + more);
    var x := Quoted(e.key) + value;
    assert x[1..] == EscapeFrom(e.key, 0) + [QUOTE] + value;
    EscapedReads(e.key, 0, value);
    assert e.key[0..] == e.key && value[1..] == Render(e.value) + more;
  }

  // ---------- the canonical text ----------

  /** Every object's keys stand in ascending order, each once. */
  predicate KeysAscend(v: Json) {
    match v
    case Arr(items) => forall i | 0 <= i < |items| :: KeysAscend(items[i])
    case Obj(es) =>
      && (forall i | 0 <= i < |es| :: KeysAscend(es[i].value))
      && forall i, j | 0 <= i < j < |es| :: Less(es[i].key, es[j].key)
    case _ => true
  }

  lemma {:induction false} CanonAscends(v: Json)
    requires WellFormed(v)
    ensures KeysAscend(Canon(v))
  {
    match v {
      case Arr(items) =>
        forall i | 0 <= i < |items| ensures KeysAscend(Canon(items[i])) { CanonAscends(items[i]); }
      case Obj(es) =>
        var ces := CanonEntries(es);
        forall i | 0 <= i < |es| ensures KeysAscend(ces[i].value) { CanonAscends(es[i].value); }
        SortAscends(ces);
        SortContents(ces);
        var sorted := SortByKey(ces);
        forall i | 0 <= i < |sorted| ensures KeysAscend(sorted[i].value) { assert sorted[i] in multiset(ces); }
      case _ =>
    }
  }

  /** Sorting what is sorted changes nothing. */
  lemma {:induction false} CanonIsCanon(v: Json)
    requires WellFormed(v)
    ensures Canon(Canon(v)) == Canon(v)
  {
    match v {
      case Arr(items) =>
        forall i | 0 <= i < |items| ensures Canon(Canon(items[i])) == Canon(items[i]) { CanonIsCanon(items[i]); }
        assert CanonItems(CanonItems(items)) == CanonItems(items);
      case Obj(es) =>
        var ces := CanonEntries(es);
        var sorted := SortByKey(ces);
        forall i | 0 <= i < |es| ensures Canon(ces[i].value) == ces[i].value { CanonIsCanon(es[i].value); }
        SortContents(ces);
        forall i | 0 <= i < |sorted| ensures Canon(sorted[i].value) == sorted[i].value { assert sorted[i] in multiset(ces); }
        assert CanonEntries(sorted) == sorted;
        CanonFormed(v);
        SortAscends(ces);
        SortAscends(sorted);
        SortContents(sorted);
        AscendingIsUnique(SortByKey(sorted), sorted);
      case _ =>
    }
  }

  /** The canonical text is one JSON text, and what it says is the value with every object's keys in ascending order. */
  lemma CanonicalTextReadsBack(v: Json)
    requires WellFormed(v)
    ensures ReadValue(CanonicalJson.CanonicalJson(v)) == Some((Canon(v), []))
    ensures KeysAscend(Canon(v)) && Same(v, Canon(v))
  {
    CanonFormed(v);
    CanonAscends(v);
    ReadsBack(Canon(v), []);
    assert Render(Canon(v)) + [] == Render(Canon(v));
    CanonIsCanon(v);
    CanonDecides(v, Canon(v));
  }
}
