// What stableStringify prints is JSON: a parser after RFC 8259 reads every printed value back, with
// the keys of its objects in order.
module CanonicalParse {
  import opened Canonical

  datatype Parsed<T> = Refused | Parsed(value: T, rest: Text)

  // ---- strings: RFC 8259, section 7 ----

  function Put(c: Unit, r: Parsed<Text>): (p: Parsed<Text>)
    ensures p.Parsed? <==> r.Parsed?
    ensures p.Parsed? ==> p.rest == r.rest
  {
    if r.Refused? then Refused else Parsed([c] + r.value, r.rest)
  }

  // The unit that a letter after the backslash stands for.
  function Escaped(c: Unit): Parsed<Unit> {
    if c == 0x22 || c == 0x5C || c == 0x2F then Parsed(c, [])
    else if c == 0x62 then Parsed(0x08, [])
    else if c == 0x66 then Parsed(0x0C, [])
    else if c == 0x6E then Parsed(0x0A, [])
    else if c == 0x72 then Parsed(0x0D, [])
    else if c == 0x74 then Parsed(0x09, [])
    else Refused
  }

  predicate HexDigit(c: Unit) {
    0x30 <= c <= 0x39 || 0x41 <= c <= 0x46 || 0x61 <= c <= 0x66
  }

  function HexValue(c: Unit): (d: int)
    requires HexDigit(c)
    ensures 0 <= d < 16
  {
    if c <= 0x39 then c - 0x30 else if c <= 0x46 then c - 0x41 + 10 else c - 0x61 + 10
  }

  // The text up to the closing quotation mark.
  function ParseText(t: Text): (r: Parsed<Text>)
    ensures r.Parsed? ==> |r.rest| < |t|
    decreases |t|
  {
    if t == [] || t[0] < 0x20 then Refused
    else if t[0] == 0x22 then Parsed([], t[1..])
    else if t[0] != 0x5C then Put(t[0], ParseText(t[1..]))
    else if |t| >= 6 && t[1] == 0x75 && HexDigit(t[2]) && HexDigit(t[3]) && HexDigit(t[4]) && HexDigit(t[5]) then
      Put(HexValue(t[2]) * 0x1000 + HexValue(t[3]) * 0x100 + HexValue(t[4]) * 0x10 + HexValue(t[5]), ParseText(t[6..]))
    else if |t| >= 2 && Escaped(t[1]).Parsed? then Put(Escaped(t[1]).value, ParseText(t[2..]))
    else Refused
  }

  // ---- values: RFC 8259, sections 3 to 6, without blanks ----

  function NumeralLength(t: Text): (n: nat)
    ensures n <= |t| && NumeralUnits(t[..n]) && (n < |t| ==> !NumeralUnit(t[n]))
  {
    if t == [] || !NumeralUnit(t[0]) then 0
    else
      var n := NumeralLength(t[1..]);
      assert t[..n + 1] == [t[0]] + t[1..][..n];
      1 + n
  }

  predicate StartsWith(t: Text, word: Text) {
    |t| >= |word| && t[..|word|] == word
  }

  function ParseValue(t: Text): (r: Parsed<Json>)
    ensures r.Parsed? ==> |r.rest| < |t|
    decreases |t|, 0
  {
    if t == [] then Refused
    else if StartsWith(t, [0x6E, 0x75, 0x6C, 0x6C]) then Parsed(Null, t[4..])
    else if StartsWith(t, [0x74, 0x72, 0x75, 0x65]) then Parsed(Bool(true), t[4..])
    else if StartsWith(t, [0x66, 0x61, 0x6C, 0x73, 0x65]) then Parsed(Bool(false), t[5..])
    else if t[0] == 0x22 then
      var s := ParseText(t[1..]);
      if s.Refused? then Refused else Parsed(String(s.value), s.rest)
    else if t[0] == 0x2D || 0x30 <= t[0] <= 0x39 then Parsed(Number(t[..NumeralLength(t)]), t[NumeralLength(t)..])
    else if t[0] == 0x5B then
      if StartsWith(t[1..], [0x5D]) then Parsed(List([]), t[2..])
      else
        var items := ParseItems(t[1..]);
        if items.Refused? then Refused else Parsed(List(items.value), items.rest)
    else if t[0] == 0x7B then
      if StartsWith(t[1..], [0x7D]) then Parsed(Object([]), t[2..])
      else
        var fields := ParseFields(t[1..]);
        if fields.Refused? then Refused else Parsed(Object(fields.value), fields.rest)
    else Refused
  }

  // Values separated by commas, up to the closing bracket.
  function ParseItems(t: Text): (r: Parsed<seq<Json>>)
    ensures r.Parsed? ==> |r.rest| < |t|
    decreases |t|, 1
  {
    var first := ParseValue(t);
    if first.Refused? || first.rest == [] then Refused
    else if first.rest[0] == 0x5D then Parsed([first.value], first.rest[1..])
    else if first.rest[0] != 0x2C then Refused
    else
      var others := ParseItems(first.rest[1..]);
      if others.Refused? then Refused else Parsed([first.value] + others.value, others.rest)
  }

  function ParseFields(t: Text): (r: Parsed<seq<Field>>)
    ensures r.Parsed? ==> |r.rest| < |t|
    decreases |t|, 1
  {
    if !StartsWith(t, [0x22]) then Refused
    else
      var key := ParseText(t[1..]);
      if key.Refused? || !StartsWith(key.rest, [0x3A]) then Refused
      else
        var first := ParseValue(key.rest[1..]);
        if first.Refused? || first.rest == [] then Refused
        else if first.rest[0] == 0x7D then Parsed([Field(key.value, first.value)], first.rest[1..])
        else if first.rest[0] != 0x2C then Refused
        else
          var others := ParseFields(first.rest[1..]);
          if others.Refused? then Refused else Parsed([Field(key.value, first.value)] + others.value, others.rest)
  }

  // ---- strings come back ----

  lemma HexBack(d: int)
    requires 0 <= d < 16
    ensures HexDigit(Hex(d)) && HexValue(Hex(d)) == d
  {
  }

  lemma UnitBack(c: Unit, x: Text)
    ensures ParseText(EscapeUnit(c) + x) == Put(c, ParseText(x))
  {
    var e := EscapeUnit(c);
    var t := e + x;
    assert t[|e|..] == x;
    if |e| == 6 {
      HexDigits(c);
      HexBack(c / 0x1000);
      HexBack(c / 0x100 % 0x10);
      HexBack(c / 0x10 % 0x10);
      HexBack(c % 0x10);
      assert t[2] == e[2] && t[3] == e[3] && t[4] == e[4] && t[5] == e[5];
    }
  }

  // A surrogate pair is printed as it is.
  lemma PairBack(s: Text, x: Text)
    requires Pair(s)
    ensures ParseText(s[..2] + x) == Put(s[0], Put(s[1], ParseText(x)))
  {
    var t := s[..2] + x;
    assert t[1..][1..] == x;
  }

  lemma TextEnds(x: Text)
    ensures ParseText([QUOTE] + x) == Parsed([], x)
  {
    assert ([QUOTE] + x)[1..] == x;
  }

  lemma {:induction false} TextBack(s: Text, x: Text)
    ensures ParseText(Tail(s, x)) == Parsed(s, x)
    decreases |s|
  {
    hide ParseText, Tail, EscapeUnit;
    TailParts(s, x);
    if s == [] {
      TextEnds(x);
    } else if Pair(s) {
      TextBack(s[2..], x);
      PairBack(s, Tail(s[2..], x));
      assert [s[0]] + ([s[1]] + s[2..]) == s;
    } else {
      TextBack(s[1..], x);
      UnitBack(s[0], Tail(s[1..], x));
      assert [s[0]] + s[1..] == s;
    }
  }

  lemma QuoteStarts(s: Text, x: Text)
    ensures Quote(s) + x != [] && (Quote(s) + x)[0] == QUOTE && (Quote(s) + x)[1..] == Tail(s, x)
  {
    assert Quote(s) + x == [QUOTE] + Tail(s, x);
  }

  // ---- values come back ----

  // The keys of every object are in order.
  ghost predicate KeysInOrder(v: Json, le: Order) {
    match v
    case List(items) => forall i :: 0 <= i < |items| ==> KeysInOrder(items[i], le)
    case Object(fields) =>
      && (forall i, j :: 0 <= i < j < |fields| ==> le(fields[i].key, fields[j].key))
      && (forall i :: 0 <= i < |fields| ==> KeysInOrder(fields[i].value, le))
    case _ => true
  }

  // The same value, as it is read back.
  ghost predicate Back(v: Json, w: Json, le: Order) {
    Valid(w) && KeysInOrder(w, le) && Stringify(w, le) == Stringify(v, le)
  }

  // A field read back from an entry.
  ghost predicate FieldBack(e: Entry, g: Field, le: Order) {
    g.key == e.key && Valid(g.value) && KeysInOrder(g.value, le) && Stringify(g.value, le) == e.text
  }

  lemma LiteralBack(v: Json, x: Text, le: Order)
    requires v.Null? || v.Bool?
    ensures ParseValue(Stringify(v, le) + x) == Parsed(v, x)
  {
    var s := Stringify(v, le);
    var t := s + x;
    assert t[..|s|] == s && t[|s|..] == x;
    assert StartsWith(t, s);
    assert t[0] == s[0];
    if v == Bool(true) {
      assert !StartsWith(t, [0x6E, 0x75, 0x6C, 0x6C]) by { assert t[..4][0] == t[0]; }
    } else if v == Bool(false) {
      assert !StartsWith(t, [0x6E, 0x75, 0x6C, 0x6C]) && !StartsWith(t, [0x74, 0x72, 0x75, 0x65]) by { assert t[..4][0] == t[0]; }
    }
  }

  // No literal begins like any other value.
  lemma NotALiteral(t: Text)
    requires t != [] && t[0] != 0x6E && t[0] != 0x74 && t[0] != 0x66
    ensures !StartsWith(t, [0x6E, 0x75, 0x6C, 0x6C]) && !StartsWith(t, [0x74, 0x72, 0x75, 0x65])
    ensures !StartsWith(t, [0x66, 0x61, 0x6C, 0x73, 0x65])
  {
    assert |t| >= 4 ==> t[..4][0] == t[0];
    assert |t| >= 5 ==> t[..5][0] == t[0];
  }

  lemma NumberBack(n: Text, x: Text)
    requires Numeral(n) && Stop(x)
    ensures ParseValue(n + x) == Parsed(Number(n), x)
  {
    var t := n + x;
    var l := NumeralLength(t);
    assert t[0] == n[0];
    NotALiteral(t);
    assert t[..l] + t[l..] == t;
    assert Stop(t[l..]);
    NumeralUnambiguous(n, t[..l], x, t[l..]);
  }

  lemma StringBack(s: Text, x: Text)
    ensures ParseValue(Quote(s) + x) == Parsed(String(s), x)
  {
    QuoteStarts(s, x);
    NotALiteral(Quote(s) + x);
    TextBack(s, x);
  }

  // What follows a part of a list or an object cannot continue a numeral.
  lemma MoreStops(parts: seq<Text>, bracket: Unit, x: Text)
    requires !NumeralUnit(bracket)
    ensures Stop(More(parts, bracket, x))
  {
  }

  lemma {:induction false} ValueBack(v: Json, x: Text, le: Order)
    requires TotalOrder(le) && Valid(v) && Stop(x)
    ensures var r := ParseValue(Stringify(v, le) + x); r.Parsed? && r.rest == x && Back(v, r.value, le)
    decreases v, 1, 0
  {
    match v
    case Null => LiteralBack(v, x, le);
    case Bool(_) => LiteralBack(v, x, le);
    case Number(n) => NumberBack(n, x);
    case String(s) => StringBack(s, x);
    case List(_) => ListBack(v, x, le);
    case Object(_) => ObjectBack(v, x, le);
  }

  // Past the opening bracket.
  lemma Opened(bracket: Unit, inner: Text, x: Text)
    ensures var t := [bracket] + inner + x; t != [] && t[0] == bracket && t[1..] == inner + x
  {
    assert [bracket] + inner + x == [bracket] + (inner + x);
  }

  lemma ListOpens(t: Text)
    requires t != [] && t[0] == OPEN_LIST && |t| > 1 && t[1] != CLOSE_LIST && ParseItems(t[1..]).Parsed?
    ensures var items := ParseItems(t[1..]); ParseValue(t) == Parsed(List(items.value), items.rest)
  {
    NotALiteral(t);
  }

  lemma EmptyListBack(x: Text, le: Order)
    ensures ParseValue(Stringify(List([]), le) + x) == Parsed(List([]), x)
  {
    var t := Stringify(List([]), le) + x;
    NotALiteral(t);
    assert t == [OPEN_LIST, CLOSE_LIST] + x;
  }

  lemma {:induction false} ListBack(v: Json, x: Text, le: Order)
    requires TotalOrder(le) && v.List? && Valid(v) && Stop(x)
    ensures var r := ParseValue(Stringify(v, le) + x); r.Parsed? && r.rest == x && Back(v, r.value, le)
    decreases v, 0, |v.items| + 1
  {
    var parts := StringifyAll(v.items, le);
    var t := Stringify(v, le) + x;
    if v.items == [] {
      EmptyListBack(x, le);
    } else {
      Opened(OPEN_LIST, Close(parts, CLOSE_LIST), x);
      CloseUnfold(parts, CLOSE_LIST, x);
      FirstUnit(v.items[0], le);
      assert t[1..][0] == parts[0][0];
      ItemsBack(v, v.items, x, le);
      ListOpens(t);
      hide *;
      ListIsBack(v, ParseItems(t[1..]).value, le);
    }
  }

  lemma {:induction false} ListIsBack(v: Json, items: seq<Json>, le: Order)
    requires v.List? && StringifyAll(items, le) == StringifyAll(v.items, le)
    requires forall i :: 0 <= i < |items| ==> Valid(items[i]) && KeysInOrder(items[i], le)
    ensures Back(v, List(items), le)
  {
  }

  // What ParseItems makes of a value and what follows it.
  lemma ItemsUnfold(t: Text, value: Json, rest: Text)
    requires ParseValue(t) == Parsed(value, rest) && rest != []
    ensures rest[0] == CLOSE_LIST ==> ParseItems(t) == Parsed([value], rest[1..])
    ensures rest[0] == COMMA && ParseItems(rest[1..]).Parsed? ==>
      ParseItems(t) == Parsed([value] + ParseItems(rest[1..]).value, ParseItems(rest[1..]).rest)
  {
  }

  lemma BackParts(v: Json, w: Json, le: Order)
    requires Back(v, w, le)
    ensures Valid(w) && KeysInOrder(w, le) && Stringify(w, le) == Stringify(v, le)
  {
  }

  lemma {:induction false} AllBack(v: Json, others: seq<Json>, le: Order)
    ensures StringifyAll([v] + others, le) == [Stringify(v, le)] + StringifyAll(others, le)
  {
    assert ([v] + others)[1..] == others;
  }

  lemma {:induction false} ItemsBack(a: Json, items: seq<Json>, x: Text, le: Order)
    requires TotalOrder(le) && a.List? && items != [] && forall i :: 0 <= i < |items| ==> items[i] in a.items && Valid(items[i])
    ensures var r := ParseItems(Close(StringifyAll(items, le), CLOSE_LIST) + x);
      && r.Parsed? && r.rest == x && |r.value| == |items| && StringifyAll(r.value, le) == StringifyAll(items, le)
      && forall i :: 0 <= i < |items| ==> Valid(r.value[i]) && KeysInOrder(r.value[i], le)
    decreases a, 0, |items|
  {
    hide ParseItems, ParseValue, Close, Stop, KeysInOrder, Stringify, Valid, Back;
    var parts := StringifyAll(items, le);
    var t := Close(parts, CLOSE_LIST) + x;
    CloseUnfold(parts, CLOSE_LIST, x);
    MoreStops(parts[1..], CLOSE_LIST, x);
    ValueBack(items[0], More(parts[1..], CLOSE_LIST, x), le);
    BackParts(items[0], ParseValue(t).value, le);
    var value := ParseValue(t).value;
    ItemsUnfold(t, value, More(parts[1..], CLOSE_LIST, x));
    if |items| == 1 {
      assert More(parts[1..], CLOSE_LIST, x)[1..] == x;
      AllBack(value, [], le);
      assert [value] + [] == [value];
    } else {
      assert parts[1..] == StringifyAll(items[1..], le);
      assert More(parts[1..], CLOSE_LIST, x)[1..] == Close(parts[1..], CLOSE_LIST) + x;
      ItemsBack(a, items[1..], x, le);
      AllBack(value, ParseItems(Close(parts[1..], CLOSE_LIST) + x).value, le);
    }
  }

  lemma {:induction false} ObjectBack(v: Json, x: Text, le: Order)
    requires TotalOrder(le) && v.Object? && Valid(v) && Stop(x)
    ensures var r := ParseValue(Stringify(v, le) + x); r.Parsed? && r.rest == x && Back(v, r.value, le)
    decreases v, 0, |v.fields| + 1
  {
    var p := Sort(Entries(v.fields, le), le);
    var t := Stringify(v, le) + x;
    Opened(OPEN_OBJECT, Close(Members(p), CLOSE_OBJECT), x);
    NotALiteral(t);
    CloseUnfold(Members(p), CLOSE_OBJECT, x);
    SortedBacked(v.fields, le);
    EntriesDistinct(v.fields, le);
    SortKeeps(Entries(v.fields, le), le);
    if p == [] {
      assert StartsWith(t[1..], [0x7D]) && t[2..] == x by { assert t[1..] == [CLOSE_OBJECT] + x; }
    } else {
      FieldsBack(v, p, x, le);
      assert t[1..][0] == Members(p)[0][0] == QUOTE;
      FieldsPrint(p, ParseFields(t[1..]).value, le);
    }
  }

  // Fields read back in order print as the entries they were read from.
  lemma {:induction false} FieldsPrint(p: seq<Entry>, fields: seq<Field>, le: Order)
    requires TotalOrder(le) && Sorted(p, le) && |fields| == |p| && forall i :: 0 <= i < |p| ==> FieldBack(p[i], fields[i], le)
    ensures Sort(Entries(fields, le), le) == p && Valid(Object(fields)) && KeysInOrder(Object(fields), le)
  {
    EntriesPrint(p, fields, le);
    hide Sort, Entries, Stringify;
    forall i, j | 0 <= i < j < |fields| ensures fields[i].key != fields[j].key && le(fields[i].key, fields[j].key) {
      assert FieldBack(p[i], fields[i], le) && FieldBack(p[j], fields[j], le);
    }
    forall i | 0 <= i < |fields| ensures Valid(fields[i].value) && KeysInOrder(fields[i].value, le) {
      assert FieldBack(p[i], fields[i], le);
    }
  }

  lemma {:induction false} EntriesPrint(p: seq<Entry>, fields: seq<Field>, le: Order)
    requires TotalOrder(le) && Sorted(p, le) && |fields| == |p| && forall i :: 0 <= i < |p| ==> FieldBack(p[i], fields[i], le)
    ensures Sort(Entries(fields, le), le) == p
  {
    forall i | 0 <= i < |p| ensures Entries(fields, le)[i] == p[i] {
      EntriesAt(fields, le, i);
      assert FieldBack(p[i], fields[i], le);
    }
    assert Entries(fields, le) == p;
    SortedStays(p, le);
  }

  lemma SortedStays(p: seq<Entry>, le: Order)
    requires TotalOrder(le) && Sorted(p, le)
    ensures Sort(p, le) == p
  {
    SortKeeps(p, le);
    hide Sort;
    SortedUnique(Sort(p, le), p, le);
  }

  // What ParseFields makes of a member and what follows it.
  lemma FieldsUnfold(t: Text, key: Text, value: Json, rest: Text)
    requires StartsWith(t, [0x22]) && ParseText(t[1..]).Parsed? && ParseText(t[1..]).value == key
    requires var after := ParseText(t[1..]).rest; StartsWith(after, [0x3A]) && ParseValue(after[1..]) == Parsed(value, rest)
    requires rest != []
    ensures rest[0] == CLOSE_OBJECT ==> ParseFields(t) == Parsed([Field(key, value)], rest[1..])
    ensures rest[0] == COMMA && ParseFields(rest[1..]).Parsed? ==>
      ParseFields(t) == Parsed([Field(key, value)] + ParseFields(rest[1..]).value, ParseFields(rest[1..]).rest)
  {
  }

  lemma {:induction false} FieldsBack(a: Json, p: seq<Entry>, x: Text, le: Order)
    requires TotalOrder(le) && a.Object? && p != [] && Backed(p, a.fields, le)
    ensures var r := ParseFields(Close(Members(p), CLOSE_OBJECT) + x);
      && r.Parsed? && r.rest == x && |r.value| == |p|
      && forall i :: 0 <= i < |p| ==> FieldBack(p[i], r.value[i], le)
    decreases a, 0, |p|
  {
    var parts := Members(p);
    var t := Close(parts, CLOSE_OBJECT) + x;
    var more := More(parts[1..], CLOSE_OBJECT, x);
    CloseUnfold(parts, CLOSE_OBJECT, x);
    MoreStops(parts[1..], CLOSE_OBJECT, x);
    FieldHead(a, p[0], more, le);
    var key := ParseText(t[1..]);
    FieldsUnfold(t, key.value, ParseValue(key.rest[1..]).value, more);
    if |p| == 1 {
      assert more[1..] == x;
    } else {
      assert parts[1..] == Members(p[1..]);
      assert more[1..] == Close(parts[1..], CLOSE_OBJECT) + x;
      BackedTail(p, a.fields, le);
      FieldsBack(a, p[1..], x, le);
    }
    hide ParseFields, ParseText, ParseValue, FieldBack, Close, Member, StartsWith;
  }

  lemma MemberSplits(e: Entry, more: Text)
    ensures var t, x := Member(e) + more, [COLON] + (e.text + more);
      && t == Quote(e.key) + x && StartsWith(t, [0x22]) && StartsWith(x, [0x3A])
      && t[1..] == Tail(e.key, x) && x[1..] == e.text + more
  {
    var t, x := Member(e) + more, [COLON] + (e.text + more);
    assert t == Quote(e.key) + x;
    QuoteStarts(e.key, x);
  }

  lemma {:induction false} FieldHead(a: Json, e: Entry, more: Text, le: Order)
    requires TotalOrder(le) && a.Object? && PrintsOne(e, a.fields, le) && Stop(more)
    ensures var t := Member(e) + more;
      && StartsWith(t, [0x22])
      && var key := ParseText(t[1..]);
      && key.Parsed? && StartsWith(key.rest, [0x3A])
      && var first := ParseValue(key.rest[1..]);
      && first.Parsed? && first.rest == more && FieldBack(e, Field(key.value, first.value), le)
    decreases a, 0, 0
  {
    var i :| 0 <= i < |a.fields| && Prints(e, a.fields[i], le);
    MemberSplits(e, more);
    TextBack(e.key, [COLON] + (e.text + more));
    ValueBack(a.fields[i].value, more, le);
    hide ParseText, ParseValue, Stringify, Valid, KeysInOrder, StartsWith, Stop, Tail, Member;
  }

  // Everything that is printed is read back as the same value, key order aside, with its keys in
  // order; and nothing of what follows is taken.
  lemma PrintedIsRead(v: Json, x: Text, le: Order)
    requires TotalOrder(le) && Valid(v) && Stop(x)
    ensures var r := ParseValue(Stringify(v, le) + x);
      r.Parsed? && r.rest == x && Same(v, r.value) && KeysInOrder(r.value, le) && Stringify(r.value, le) == Stringify(v, le)
  {
    ValueBack(v, x, le);
    StringifyCanonical(v, ParseValue(Stringify(v, le) + x).value, le);
  }
}
