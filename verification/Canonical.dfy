// stableStringify: two JSON values print alike exactly when they differ only in object key order.
module Canonical {

  // JavaScript strings are sequences of UTF-16 code units.
  type Unit = c: int | 0 <= c < 0x10000
  type Text = seq<Unit>

  datatype Field = Field(key: Text, value: Json)

  // A finite number is represented by the numeral that JavaScript prints for it.  Object fields
  // come in insertion order.
  datatype Json = Null | Bool(value: bool) | Number(numeral: Text) | String(text: Text)
                | List(items: seq<Json>) | Object(fields: seq<Field>)

  const QUOTE: Unit := 0x22
  const COMMA: Unit := 0x2C
  const COLON: Unit := 0x3A
  const OPEN_LIST: Unit := 0x5B
  const BACKSLASH: Unit := 0x5C
  const CLOSE_LIST: Unit := 0x5D
  const OPEN_OBJECT: Unit := 0x7B
  const CLOSE_OBJECT: Unit := 0x7D

  const NULL: Text := [0x6E, 0x75, 0x6C, 0x6C]
  const TRUE: Text := [0x74, 0x72, 0x75, 0x65]
  const FALSE: Text := [0x66, 0x61, 0x6C, 0x73, 0x65]

  predicate Digit(c: Unit) {
    0x30 <= c <= 0x39
  }

  // Digits and the signs, point and exponent mark of RFC 8259, section 6.
  predicate NumeralUnit(c: Unit) {
    Digit(c) || c == 0x2B || c == 0x2D || c == 0x2E || c == 0x45 || c == 0x65
  }

  predicate NumeralUnits(t: Text) {
    forall i :: 0 <= i < |t| ==> NumeralUnit(t[i])
  }

  predicate Numeral(t: Text) {
    t != [] && (Digit(t[0]) || t[0] == 0x2D) && NumeralUnits(t)
  }

  predicate DistinctKeys(fields: seq<Field>) {
    forall i, j :: 0 <= i < j < |fields| ==> fields[i].key != fields[j].key
  }

  // The values JSON can carry: printable numbers, and objects with distinct keys.
  predicate Valid(v: Json) {
    match v
    case Number(n) => Numeral(n)
    case List(items) => forall i :: 0 <= i < |items| ==> Valid(items[i])
    case Object(fields) => DistinctKeys(fields) && forall i :: 0 <= i < |fields| ==> Valid(fields[i].value)
    case _ => true
  }

  // Equal but for the order of object keys.
  ghost predicate Same(a: Json, b: Json) {
    match (a, b)
    case (List(x), List(y)) => |x| == |y| && forall i :: 0 <= i < |x| ==> Same(x[i], y[i])
    case (Object(f), Object(g)) => |f| == |g| && forall i :: 0 <= i < |f| ==> exists j :: 0 <= j < |g| && SameField(f[i], g[j])
    case _ => a == b
  }

  ghost predicate SameField(f: Field, g: Field) {
    f.key == g.key && Same(f.value, g.value)
  }

  // ---- JSON.stringify of a string: RFC 8259, section 7 ----

  predicate High(c: Unit) {
    0xD800 <= c <= 0xDBFF
  }

  predicate Low(c: Unit) {
    0xDC00 <= c <= 0xDFFF
  }

  function Hex(d: int): Unit
    requires 0 <= d < 16
  {
    if d < 10 then 0x30 + d else 0x61 + d - 10
  }

  // A lone surrogate is escaped like a control character.
  function EscapeUnit(c: Unit): (t: Text)
    ensures t != [] && t[0] != QUOTE && !High(t[0])
  {
    if c == QUOTE || c == BACKSLASH then [BACKSLASH, c]
    else if c == 8 then [BACKSLASH, 0x62]
    else if c == 9 then [BACKSLASH, 0x74]
    else if c == 10 then [BACKSLASH, 0x6E]
    else if c == 12 then [BACKSLASH, 0x66]
    else if c == 13 then [BACKSLASH, 0x72]
    else if c < 0x20 || High(c) || Low(c) then
      [BACKSLASH, 0x75, Hex(c / 0x1000), Hex(c / 0x100 % 0x10), Hex(c / 0x10 % 0x10), Hex(c % 0x10)]
    else [c]
  }

  predicate Pair(s: Text) {
    |s| >= 2 && High(s[0]) && Low(s[1])
  }

  function Escape(s: Text): Text {
    if s == [] then []
    else if Pair(s) then s[..2] + Escape(s[2..])
    else EscapeUnit(s[0]) + Escape(s[1..])
  }

  function Quote(s: Text): Text {
    [QUOTE] + Escape(s) + [QUOTE]
  }

  // ---- stableStringify ----

  // The locale's order of keys, any total order.
  type Order = (Text, Text) -> bool

  ghost predicate TotalOrder(le: Order) {
    && (forall a, b :: le(a, b) || le(b, a))
    && (forall a, b :: le(a, b) && le(b, a) ==> a == b)
    && (forall a, b, c :: le(a, b) && le(b, c) ==> le(a, c))
  }

  // A field whose value is printed already: sorting by key does not look at values.
  datatype Entry = Entry(key: Text, text: Text)

  function Insert(e: Entry, entries: seq<Entry>, le: Order): seq<Entry> {
    if entries == [] || le(e.key, entries[0].key) then [e] + entries
    else [entries[0]] + Insert(e, entries[1..], le)
  }

  function Sort(entries: seq<Entry>, le: Order): seq<Entry> {
    if entries == [] then [] else Insert(entries[0], Sort(entries[1..], le), le)
  }

  function Member(e: Entry): Text {
    Quote(e.key) + [COLON] + e.text
  }

  // `.join(",")`, closed by the final bracket.
  function Close(parts: seq<Text>, bracket: Unit): Text {
    if parts == [] then [bracket]
    else if |parts| == 1 then parts[0] + [bracket]
    else parts[0] + [COMMA] + Close(parts[1..], bracket)
  }

  function Members(entries: seq<Entry>): (parts: seq<Text>) {
    seq(|entries|, i requires 0 <= i < |entries| => Member(entries[i]))
  }

  function StringifyAll(items: seq<Json>, le: Order): (parts: seq<Text>)
    ensures |parts| == |items|
  {
    if items == [] then [] else [Stringify(items[0], le)] + StringifyAll(items[1..], le)
  }

  function Entries(fields: seq<Field>, le: Order): (entries: seq<Entry>)
    ensures |entries| == |fields|
  {
    if fields == [] then [] else [Entry(fields[0].key, Stringify(fields[0].value, le))] + Entries(fields[1..], le)
  }

  function Stringify(v: Json, le: Order): Text {
    match v
    case Null => NULL
    case Bool(b) => if b then TRUE else FALSE
    case Number(n) => n
    case String(s) => Quote(s)
    case List(items) => [OPEN_LIST] + Close(StringifyAll(items, le), CLOSE_LIST)
    case Object(fields) => [OPEN_OBJECT] + Close(Members(Sort(Entries(fields, le), le)), CLOSE_OBJECT)
  }

  lemma {:induction false} EntriesAt(fields: seq<Field>, le: Order, i: nat)
    requires i < |fields|
    ensures Entries(fields, le)[i] == Entry(fields[i].key, Stringify(fields[i].value, le))
  {
    if i > 0 { EntriesAt(fields[1..], le, i - 1); }
  }

  lemma {:induction false} StringifyAllAt(items: seq<Json>, le: Order, i: nat)
    requires i < |items|
    ensures StringifyAll(items, le)[i] == Stringify(items[i], le)
  {
    if i > 0 { StringifyAllAt(items[1..], le, i - 1); }
  }

  // ---- sorting ----

  ghost predicate Sorted(entries: seq<Entry>, le: Order) {
    forall i, j :: 0 <= i < j < |entries| ==> le(entries[i].key, entries[j].key) && entries[i].key != entries[j].key
  }

  ghost predicate DistinctEntries(entries: seq<Entry>) {
    forall i, j :: 0 <= i < j < |entries| ==> entries[i].key != entries[j].key
  }

  lemma {:induction false} InsertMultiset(e: Entry, entries: seq<Entry>, le: Order)
    ensures multiset(Insert(e, entries, le)) == multiset(entries) + multiset{e}
  {
    if entries != [] && !le(e.key, entries[0].key) {
      InsertMultiset(e, entries[1..], le);
      assert entries == [entries[0]] + entries[1..];
    }
  }

  lemma SortedCons(e: Entry, rest: seq<Entry>, le: Order)
    requires Sorted(rest, le) && forall i :: 0 <= i < |rest| ==> le(e.key, rest[i].key) && e.key != rest[i].key
    ensures Sorted([e] + rest, le)
  {
  }

  lemma {:induction false} InsertSorts(e: Entry, entries: seq<Entry>, le: Order)
    requires TotalOrder(le) && Sorted(entries, le) && forall i :: 0 <= i < |entries| ==> entries[i].key != e.key
    ensures Sorted(Insert(e, entries, le), le)
  {
    if entries == [] || le(e.key, entries[0].key) {
      SortedCons(e, entries, le);
    } else {
      InsertSorts(e, entries[1..], le);
      var rest := Insert(e, entries[1..], le);
      InsertMultiset(e, entries[1..], le);
      forall i | 0 <= i < |rest| ensures le(entries[0].key, rest[i].key) && entries[0].key != rest[i].key {
        assert rest[i] in multiset(rest);
        if rest[i] != e { assert rest[i] in entries[1..]; }
      }
      SortedCons(entries[0], rest, le);
    }
  }

  lemma {:induction false} SortSorts(entries: seq<Entry>, le: Order)
    requires TotalOrder(le) && DistinctEntries(entries)
    ensures Sorted(Sort(entries, le), le) && multiset(Sort(entries, le)) == multiset(entries)
  {
    if entries != [] {
      SortSorts(entries[1..], le);
      assert entries == [entries[0]] + entries[1..];
      var rest := Sort(entries[1..], le);
      forall i | 0 <= i < |rest| ensures rest[i].key != entries[0].key {
        assert rest[i] in multiset(rest);
      }
      InsertSorts(entries[0], rest, le);
      InsertMultiset(entries[0], rest, le);
    }
  }

  // Only one sequence lists given entries in order.
  lemma {:induction false} SortedUnique(p: seq<Entry>, q: seq<Entry>, le: Order)
    requires TotalOrder(le) && Sorted(p, le) && Sorted(q, le) && |p| == |q| && forall e :: e in p <==> e in q
    ensures p == q
  {
    if p != [] {
      SameHead(p, q, le);
      forall e ensures e in p[1..] <==> e in q[1..] {
        assert p == [p[0]] + p[1..] && q == [q[0]] + q[1..];
        assert p[0] !in p[1..] && q[0] !in q[1..];
        assert e in p <==> e in q;
      }
      SortedUnique(p[1..], q[1..], le);
    }
  }

  lemma SameHead(p: seq<Entry>, q: seq<Entry>, le: Order)
    requires TotalOrder(le) && Sorted(p, le) && Sorted(q, le) && forall e :: e in p <==> e in q
    requires p != [] && q != []
    ensures p[0] == q[0]
  {
    assert p[0] in q && q[0] in p;
    var i :| 0 <= i < |q| && q[i] == p[0];
    var j :| 0 <= j < |p| && p[j] == q[0];
  }

  // ---- equal up to key order implies equal text ----

  lemma EntryMember(fields: seq<Field>, le: Order, e: Entry) returns (i: nat)
    requires e in Entries(fields, le)
    ensures i < |fields| && e == Entry(fields[i].key, Stringify(fields[i].value, le))
  {
    i :| 0 <= i < |fields| && Entries(fields, le)[i] == e;
    EntriesAt(fields, le, i);
  }

  lemma EntriesDistinct(fields: seq<Field>, le: Order)
    requires DistinctKeys(fields)
    ensures DistinctEntries(Entries(fields, le))
  {
    forall i, j | 0 <= i < j < |fields| ensures Entries(fields, le)[i].key != Entries(fields, le)[j].key {
      EntriesAt(fields, le, i);
      EntriesAt(fields, le, j);
    }
  }

  lemma SameFieldsSort(f: seq<Field>, g: seq<Field>, le: Order)
    requires TotalOrder(le) && DistinctKeys(f) && DistinctKeys(g) && |f| == |g|
    requires forall e :: e in Entries(f, le) <==> e in Entries(g, le)
    ensures Sort(Entries(f, le), le) == Sort(Entries(g, le), le)
  {
    EntriesDistinct(f, le);
    EntriesDistinct(g, le);
    SortKeeps(Entries(f, le), le);
    SortKeeps(Entries(g, le), le);
    SortedUnique(Sort(Entries(f, le), le), Sort(Entries(g, le), le), le);
  }

  lemma SortKeeps(entries: seq<Entry>, le: Order)
    requires TotalOrder(le) && DistinctEntries(entries)
    ensures Sorted(Sort(entries, le), le) && |Sort(entries, le)| == |entries|
    ensures forall e :: e in Sort(entries, le) <==> e in entries
  {
    SortSorts(entries, le);
    assert |multiset(Sort(entries, le))| == |multiset(entries)|;
    forall e ensures e in Sort(entries, le) <==> e in entries {
      assert e in multiset(Sort(entries, le)) <==> e in multiset(entries);
    }
  }

  lemma {:induction false} SamePrints(a: Json, b: Json, le: Order)
    requires TotalOrder(le) && Valid(a) && Valid(b) && Same(a, b)
    ensures Stringify(a, le) == Stringify(b, le)
    decreases a
  {
    match (a, b) {
      case (List(x), List(y)) =>
        forall i | 0 <= i < |x| ensures StringifyAll(x, le)[i] == StringifyAll(y, le)[i] {
          SamePrints(x[i], y[i], le);
          StringifyAllAt(x, le, i);
          StringifyAllAt(y, le, i);
        }
        assert StringifyAll(x, le) == StringifyAll(y, le);
      case (Object(f), Object(g)) =>
        var p, q := Entries(f, le), Entries(g, le);
        forall i | 0 <= i < |p| ensures p[i] in q {
          var j :| 0 <= j < |g| && SameField(f[i], g[j]);
          SamePrints(f[i].value, g[j].value, le);
          EntriesAt(f, le, i);
          EntriesAt(g, le, j);
          assert q[j] == p[i];
        }
        EntriesDistinct(f, le);
        EntriesDistinct(g, le);
        SubsetIsAll(p, q);
        SameFieldsSort(f, g, le);
      case _ =>
    }
  }

  // Distinct entries that all occur among as many others are all of them.
  lemma SubsetIsAll(p: seq<Entry>, q: seq<Entry>)
    requires DistinctEntries(p) && DistinctEntries(q) && |p| == |q|
    requires forall i :: 0 <= i < |p| ==> p[i] in q
    ensures forall e :: e in p <==> e in q
  {
    var s, t := set e | e in p, set e | e in q;
    Count(p);
    Count(q);
    forall e | e in s ensures e in t {
      var i :| 0 <= i < |p| && p[i] == e;
    }
    SubsetOfSameSize(s, t);
    forall e ensures e in p <==> e in q {
      assert e in s <==> e in t;
    }
  }

  lemma {:induction false} Count(p: seq<Entry>)
    requires DistinctEntries(p)
    ensures |set e | e in p| == |p|
  {
    if p != [] {
      Count(p[1..]);
      assert p == [p[0]] + p[1..];
      assert (set e | e in p) == {p[0]} + set e | e in p[1..];
    }
  }

  lemma SubsetOfSameSize(s: set<Entry>, t: set<Entry>)
    requires s <= t && |s| == |t|
    ensures s == t
  {
    assert |t - s| == 0 by { assert t == s + (t - s); }
  }

  // ---- equal text implies equal up to key order ----

  // What may follow a printed value: nothing, or a unit that cannot continue a numeral.
  predicate Stop(x: Text) {
    x == [] || !NumeralUnit(x[0])
  }

  lemma EscapeUnitUnambiguous(c: Unit, d: Unit, x: Text, y: Text)
    requires EscapeUnit(c) + x == EscapeUnit(d) + y
    ensures c == d && x == y
  {
    var s, t := EscapeUnit(c) + x, EscapeUnit(d) + y;
    assert s[0] == EscapeUnit(c)[0] && t[0] == EscapeUnit(d)[0];
    if |EscapeUnit(c)| == 2 || |EscapeUnit(d)| == 2 {
      assert s[0] == BACKSLASH ==> s[1] == EscapeUnit(c)[1] && t[1] == EscapeUnit(d)[1];
    }
    if |EscapeUnit(c)| == 6 && |EscapeUnit(d)| == 6 {
      Cancel(EscapeUnit(c), EscapeUnit(d), x, y);
      EscapedHex(c, d);
    }
    assert |EscapeUnit(c)| == |EscapeUnit(d)|;
    assert x == s[|EscapeUnit(c)|..] && y == t[|EscapeUnit(c)|..];
  }

  lemma EscapedHex(c: Unit, d: Unit)
    requires EscapeUnit(c) == EscapeUnit(d) && |EscapeUnit(c)| == 6
    ensures c == d
  {
    assert EscapeUnit(c)[2] == Hex(c / 0x1000) && EscapeUnit(c)[3] == Hex(c / 0x100 % 0x10);
    assert EscapeUnit(c)[4] == Hex(c / 0x10 % 0x10) && EscapeUnit(c)[5] == Hex(c % 0x10);
    assert EscapeUnit(d)[2] == Hex(d / 0x1000) && EscapeUnit(d)[3] == Hex(d / 0x100 % 0x10);
    assert EscapeUnit(d)[4] == Hex(d / 0x10 % 0x10) && EscapeUnit(d)[5] == Hex(d % 0x10);
    HexUnambiguous(c, d);
  }

  lemma HexDigits(c: Unit)
    ensures c == 0x1000 * (c / 0x1000) + 0x100 * (c / 0x100 % 0x10) + 0x10 * (c / 0x10 % 0x10) + c % 0x10
    ensures c / 0x1000 < 0x10
  {
    assert c / 0x100 == c / 0x10 / 0x10 && c / 0x1000 == c / 0x100 / 0x10;
  }

  lemma HexInjective(d: int, e: int)
    requires 0 <= d < 16 && 0 <= e < 16 && Hex(d) == Hex(e)
    ensures d == e
  {
  }

  lemma HexUnambiguous(c: Unit, d: Unit)
    requires Hex(c / 0x1000) == Hex(d / 0x1000) && Hex(c / 0x100 % 0x10) == Hex(d / 0x100 % 0x10)
    requires Hex(c / 0x10 % 0x10) == Hex(d / 0x10 % 0x10) && Hex(c % 0x10) == Hex(d % 0x10)
    ensures c == d
  {
    HexDigits(c);
    HexDigits(d);
    HexInjective(c / 0x1000, d / 0x1000);
    HexInjective(c / 0x100 % 0x10, d / 0x100 % 0x10);
    HexInjective(c / 0x10 % 0x10, d / 0x10 % 0x10);
    HexInjective(c % 0x10, d % 0x10);
  }

  lemma Cancel(a: Text, b: Text, x: Text, y: Text)
    requires a + x == b + y && |a| == |b|
    ensures a == b && x == y
  {
    assert a == (a + x)[..|a|] && b == (b + y)[..|a|] && x == (a + x)[|a|..] && y == (b + y)[|a|..];
  }

  function Tail(s: Text, x: Text): Text {
    Escape(s) + [QUOTE] + x
  }

  lemma TailParts(s: Text, x: Text)
    ensures s == [] ==> Tail(s, x) == [QUOTE] + x
    ensures s != [] && Pair(s) ==> Tail(s, x) == s[..2] + Tail(s[2..], x)
    ensures s != [] && !Pair(s) ==> Tail(s, x) == EscapeUnit(s[0]) + Tail(s[1..], x)
  {
  }

  lemma {:induction false} EscapeUnambiguous(s: Text, t: Text, x: Text, y: Text)
    requires Tail(s, x) == Tail(t, y)
    ensures s == t && x == y
    decreases |s|
  {
    TailParts(s, x);
    TailParts(t, y);
    EscapeHead(s, x);
    EscapeHead(t, y);
    if s == [] {
      Cancel([QUOTE], [QUOTE], x, y);
    } else if Pair(s) {
      Cancel(s[..2], t[..2], Tail(s[2..], x), Tail(t[2..], y));
      EscapeUnambiguous(s[2..], t[2..], x, y);
      assert s == s[..2] + s[2..] && t == t[..2] + t[2..];
    } else {
      EscapeUnitUnambiguous(s[0], t[0], Tail(s[1..], x), Tail(t[1..], y));
      EscapeUnambiguous(s[1..], t[1..], x, y);
      assert s == [s[0]] + s[1..] && t == [t[0]] + t[1..];
    }
  }

  lemma EscapeHead(s: Text, x: Text)
    ensures (s == [] <==> Tail(s, x)[0] == QUOTE) && (s != [] && Pair(s) <==> High(Tail(s, x)[0]))
  {
    if s != [] { assert Tail(s, x)[0] == Escape(s)[0]; }
  }

  lemma QuoteUnambiguous(s: Text, t: Text, x: Text, y: Text)
    requires Quote(s) + x == Quote(t) + y
    ensures s == t && x == y
  {
    assert Quote(s) + x == [QUOTE] + Tail(s, x) && Quote(t) + y == [QUOTE] + Tail(t, y);
    Cancel([QUOTE], [QUOTE], Tail(s, x), Tail(t, y));
    EscapeUnambiguous(s, t, x, y);
  }

  lemma At(a: Text, x: Text, i: nat)
    requires i < |a + x|
    ensures (a + x)[i] == if i < |a| then a[i] else x[i - |a|]
  {
  }

  lemma NumeralEnds(m: Text, n: Text, x: Text, y: Text)
    requires NumeralUnits(m) && Stop(y) && m + x == n + y
    ensures |m| <= |n|
  {
    if |n| < |n + y| {
      At(m, x, |n|);
      At(n, y, |n|);
    }
  }

  lemma NumeralUnambiguous(m: Text, n: Text, x: Text, y: Text)
    requires NumeralUnits(m) && NumeralUnits(n) && Stop(x) && Stop(y) && m + x == n + y
    ensures m == n && x == y
  {
    NumeralEnds(m, n, x, y);
    NumeralEnds(n, m, y, x);
    Cancel(m, n, x, y);
  }

  // The first unit of a printed value tells its kind.
  function Kind(c: Unit): nat {
    if c == NULL[0] then 0 else if c == TRUE[0] then 1 else if c == FALSE[0] then 2
    else if c == QUOTE then 3 else if c == OPEN_LIST then 4 else if c == OPEN_OBJECT then 5
    else if NumeralUnit(c) then 6 else 7
  }

  function KindOf(v: Json): nat {
    match v
    case Null => 0
    case Bool(b) => if b then 1 else 2
    case String(_) => 3
    case List(_) => 4
    case Object(_) => 5
    case Number(_) => 6
  }

  lemma FirstUnit(v: Json, le: Order)
    requires Valid(v)
    ensures Stringify(v, le) != [] && Kind(Stringify(v, le)[0]) == KindOf(v)
  {
  }

  // Every entry is the printed form of one of these fields.
  ghost predicate Backed(entries: seq<Entry>, fields: seq<Field>, le: Order) {
    forall k :: 0 <= k < |entries| ==> PrintsOne(entries[k], fields, le)
  }

  ghost predicate PrintsOne(e: Entry, fields: seq<Field>, le: Order) {
    exists i :: 0 <= i < |fields| && Prints(e, fields[i], le)
  }

  ghost predicate Prints(e: Entry, f: Field, le: Order) {
    e.key == f.key && e.text == Stringify(f.value, le) && Valid(f.value)
  }

  lemma Associative(a: Text, b: Text, c: Text)
    ensures a + b + c == a + (b + c)
  {
  }

  lemma CloseUnfold(parts: seq<Text>, bracket: Unit, x: Text)
    ensures parts == [] ==> Close(parts, bracket) + x == [bracket] + x
    ensures parts != [] ==> Close(parts, bracket) + x == parts[0] + More(parts[1..], bracket, x)
  {
    if |parts| == 1 {
      Associative(parts[0], [bracket], x);
    } else if |parts| > 1 {
      var rest := Close(parts[1..], bracket);
      Associative(parts[0] + [COMMA], rest, x);
      Associative(parts[0], [COMMA], rest + x);
    }
  }

  // What follows a part.
  function More(parts: seq<Text>, bracket: Unit, x: Text): (t: Text)
    ensures t != [] && t[0] == if parts == [] then bracket else COMMA
  {
    if parts == [] then [bracket] + x else [COMMA] + (Close(parts, bracket) + x)
  }

  lemma MoreUnambiguous(p: seq<Text>, q: seq<Text>, bracket: Unit, x: Text, y: Text)
    requires bracket != COMMA && More(p, bracket, x) == More(q, bracket, y)
    ensures p == [] <==> q == []
    ensures p == [] ==> x == y
    ensures p != [] ==> Close(p, bracket) + x == Close(q, bracket) + y
  {
    if p == [] {
      Cancel([bracket], [bracket], x, y);
    } else {
      Cancel([COMMA], [COMMA], Close(p, bracket) + x, Close(q, bracket) + y);
    }
  }

  lemma {:induction false} Unambiguous(a: Json, b: Json, x: Text, y: Text, le: Order)
    requires TotalOrder(le) && Valid(a) && Valid(b) && Stop(x) && Stop(y)
    requires Stringify(a, le) + x == Stringify(b, le) + y
    ensures Same(a, b) && x == y && Stringify(a, le) == Stringify(b, le)
    decreases a, 1, 0
  {
    FirstUnit(a, le);
    FirstUnit(b, le);
    assert (Stringify(a, le) + x)[0] == (Stringify(b, le) + y)[0];
    match (a, b) {
      case (Number(m), Number(n)) => NumeralUnambiguous(m, n, x, y);
      case (String(s), String(t)) => QuoteUnambiguous(s, t, x, y);
      case (List(p), List(q)) => ListUnambiguous(a, b, x, y, le);
      case (Object(f), Object(g)) => ObjectUnambiguous(a, b, x, y, le);
      case _ => Cancel(Stringify(a, le), Stringify(b, le), x, y);
    }
  }

  lemma ListUnambiguous(a: Json, b: Json, x: Text, y: Text, le: Order)
    requires TotalOrder(le) && a.List? && b.List? && Valid(a) && Valid(b)
    requires Stringify(a, le) + x == Stringify(b, le) + y
    ensures Same(a, b) && x == y && Stringify(a, le) == Stringify(b, le)
    decreases a, 0, |a.items| + 1
  {
    var p, q := StringifyAll(a.items, le), StringifyAll(b.items, le);
    assert Stringify(a, le) + x == [OPEN_LIST] + (Close(p, CLOSE_LIST) + x);
    assert Stringify(b, le) + y == [OPEN_LIST] + (Close(q, CLOSE_LIST) + y);
    Cancel([OPEN_LIST], [OPEN_LIST], Close(p, CLOSE_LIST) + x, Close(q, CLOSE_LIST) + y);
    ItemsUnambiguous(a, a.items, b.items, x, y, le);
    SamePrints(a, b, le);
  }

  lemma {:induction false} ItemsUnambiguous(a: Json, v: seq<Json>, w: seq<Json>, x: Text, y: Text, le: Order)
    requires TotalOrder(le) && a.List? && (forall i :: 0 <= i < |v| ==> v[i] in a.items && Valid(v[i]))
    requires forall i :: 0 <= i < |w| ==> Valid(w[i])
    requires Close(StringifyAll(v, le), CLOSE_LIST) + x == Close(StringifyAll(w, le), CLOSE_LIST) + y
    ensures |v| == |w| && x == y && forall i :: 0 <= i < |v| ==> Same(v[i], w[i])
    decreases a, 0, |v|
  {
    var p, q := StringifyAll(v, le), StringifyAll(w, le);
    CloseUnfold(p, CLOSE_LIST, x);
    CloseUnfold(q, CLOSE_LIST, y);
    if v != [] { FirstUnit(v[0], le); }
    if w != [] { FirstUnit(w[0], le); }
    if v == [] || w == [] {
      Ends(p, q, CLOSE_LIST, x, y);
    } else {
      Unambiguous(v[0], w[0], More(p[1..], CLOSE_LIST, x), More(q[1..], CLOSE_LIST, y), le);
      MoreUnambiguous(p[1..], q[1..], CLOSE_LIST, x, y);
      assert p[1..] == StringifyAll(v[1..], le) && q[1..] == StringifyAll(w[1..], le);
      if v[1..] != [] {
        ItemsUnambiguous(a, v[1..], w[1..], x, y, le);
        forall i | 0 <= i < |v| ensures Same(v[i], w[i]) {
          if i > 0 { assert Same(v[1..][i - 1], w[1..][i - 1]); }
        }
      }
    }
  }

  lemma CloseFirst(parts: seq<Text>, bracket: Unit, x: Text)
    requires parts != [] ==> parts[0] != []
    ensures Close(parts, bracket) + x != []
    ensures (Close(parts, bracket) + x)[0] == if parts == [] then bracket else parts[0][0]
  {
    CloseUnfold(parts, bracket, x);
    if parts == [] { At([bracket], x, 0); } else { At(parts[0], More(parts[1..], bracket, x), 0); }
  }

  // A closing bracket begins no part.
  lemma Ends(p: seq<Text>, q: seq<Text>, bracket: Unit, x: Text, y: Text)
    requires Close(p, bracket) + x == Close(q, bracket) + y && (p == [] || q == [])
    requires p != [] ==> p[0] != [] && p[0][0] != bracket
    requires q != [] ==> q[0] != [] && q[0][0] != bracket
    ensures p == [] && q == [] && x == y
  {
    CloseFirst(p, bracket, x);
    CloseFirst(q, bracket, y);
    Cancel([bracket], [bracket], x, y);
  }

  lemma ObjectUnambiguous(a: Json, b: Json, x: Text, y: Text, le: Order)
    requires TotalOrder(le) && a.Object? && b.Object? && Valid(a) && Valid(b)
    requires Stringify(a, le) + x == Stringify(b, le) + y
    ensures Same(a, b) && x == y && Stringify(a, le) == Stringify(b, le)
    decreases a, 0, |a.fields| + 2
  {
    var p, q := Sort(Entries(a.fields, le), le), Sort(Entries(b.fields, le), le);
    assert Stringify(a, le) + x == [OPEN_OBJECT] + (Close(Members(p), CLOSE_OBJECT) + x);
    assert Stringify(b, le) + y == [OPEN_OBJECT] + (Close(Members(q), CLOSE_OBJECT) + y);
    Cancel([OPEN_OBJECT], [OPEN_OBJECT], Close(Members(p), CLOSE_OBJECT) + x, Close(Members(q), CLOSE_OBJECT) + y);
    SortedBacked(a.fields, le);
    SortedBacked(b.fields, le);
    MembersUnambiguous(a, b, p, q, x, y, le);
    SameMembers(a, b, p, le);
  }

  lemma SortedBacked(fields: seq<Field>, le: Order)
    requires TotalOrder(le) && DistinctKeys(fields) && forall i :: 0 <= i < |fields| ==> Valid(fields[i].value)
    ensures var p := Sort(Entries(fields, le), le); |p| == |fields| && Backed(p, fields, le)
    ensures forall i :: 0 <= i < |fields| ==> Entry(fields[i].key, Stringify(fields[i].value, le)) in Sort(Entries(fields, le), le)
  {
    EntriesDistinct(fields, le);
    SortKeeps(Entries(fields, le), le);
    var p := Sort(Entries(fields, le), le);
    forall k | 0 <= k < |p| ensures PrintsOne(p[k], fields, le) {
      assert p[k] in Entries(fields, le);
      var i := EntryMember(fields, le, p[k]);
      assert Prints(p[k], fields[i], le);
    }
    forall i | 0 <= i < |fields| ensures Entry(fields[i].key, Stringify(fields[i].value, le)) in p {
      EntriesAt(fields, le, i);
      assert Entries(fields, le)[i] in Entries(fields, le);
    }
  }

  lemma MemberParts(d: Entry, e: Entry, s: Text, t: Text)
    requires Member(d) + s == Member(e) + t
    ensures d.key == e.key && d.text + s == e.text + t
  {
    assert Member(d) + s == Quote(d.key) + ([COLON] + (d.text + s));
    assert Member(e) + t == Quote(e.key) + ([COLON] + (e.text + t));
    QuoteUnambiguous(d.key, e.key, [COLON] + (d.text + s), [COLON] + (e.text + t));
    Cancel([COLON], [COLON], d.text + s, e.text + t);
  }

  lemma HeadUnambiguous(a: Json, b: Json, d: Entry, e: Entry, s: Text, t: Text, le: Order)
    requires TotalOrder(le) && a.Object? && b.Object? && Stop(s) && Stop(t) && Member(d) + s == Member(e) + t
    requires PrintsOne(d, a.fields, le) && PrintsOne(e, b.fields, le)
    ensures d == e && s == t
    decreases a, 0, 0
  {
    var i :| 0 <= i < |a.fields| && Prints(d, a.fields[i], le);
    var j :| 0 <= j < |b.fields| && Prints(e, b.fields[j], le);
    MemberParts(d, e, s, t);
    Unambiguous(a.fields[i].value, b.fields[j].value, s, t, le);
  }

  lemma {:induction false} MembersUnambiguous(a: Json, b: Json, p: seq<Entry>, q: seq<Entry>, x: Text, y: Text, le: Order)
    requires TotalOrder(le) && a.Object? && b.Object? && Backed(p, a.fields, le) && Backed(q, b.fields, le)
    requires Close(Members(p), CLOSE_OBJECT) + x == Close(Members(q), CLOSE_OBJECT) + y
    ensures p == q && x == y
    decreases a, 0, |p|
  {
    CloseUnfold(Members(p), CLOSE_OBJECT, x);
    CloseUnfold(Members(q), CLOSE_OBJECT, y);
    if p == [] || q == [] {
      Ends(Members(p), Members(q), CLOSE_OBJECT, x, y);
    } else {
      HeadUnambiguous(a, b, p[0], q[0], More(Members(p)[1..], CLOSE_OBJECT, x), More(Members(q)[1..], CLOSE_OBJECT, y), le);
      MoreUnambiguous(Members(p)[1..], Members(q)[1..], CLOSE_OBJECT, x, y);
      assert Members(p)[1..] == Members(p[1..]) && Members(q)[1..] == Members(q[1..]);
      assert p == [p[0]] + p[1..] && q == [q[0]] + q[1..];
      if p[1..] != [] {
        BackedTail(p, a.fields, le);
        BackedTail(q, b.fields, le);
        MembersUnambiguous(a, b, p[1..], q[1..], x, y, le);
      } else {
        assert q[1..] == [];
      }
    }
  }

  lemma BackedTail(p: seq<Entry>, fields: seq<Field>, le: Order)
    requires Backed(p, fields, le) && p != []
    ensures Backed(p[1..], fields, le)
  {
    forall k | 0 <= k < |p[1..]| ensures PrintsOne(p[1..][k], fields, le) {
      assert p[1..][k] == p[k + 1];
    }
  }

  // Objects with the same sorted members have the same fields, up to order.
  lemma SameMembers(a: Json, b: Json, p: seq<Entry>, le: Order)
    requires TotalOrder(le) && a.Object? && b.Object? && Valid(a) && Valid(b) && |a.fields| == |p| == |b.fields|
    requires Backed(p, b.fields, le)
    requires forall i :: 0 <= i < |a.fields| ==> Entry(a.fields[i].key, Stringify(a.fields[i].value, le)) in p
    ensures Same(a, b)
    decreases a, 0, |a.fields| + 1
  {
    forall i | 0 <= i < |a.fields| ensures exists j :: 0 <= j < |b.fields| && SameField(a.fields[i], b.fields[j]) {
      var e := Entry(a.fields[i].key, Stringify(a.fields[i].value, le));
      var k :| 0 <= k < |p| && p[k] == e;
      var j :| 0 <= j < |b.fields| && Prints(p[k], b.fields[j], le);
      Unambiguous(a.fields[i].value, b.fields[j].value, [], [], le);
      assert SameField(a.fields[i], b.fields[j]);
    }
  }

  // stableStringify is a canonical form: equal text exactly for values equal up to key order.
  lemma StringifyCanonical(a: Json, b: Json, le: Order)
    requires TotalOrder(le) && Valid(a) && Valid(b)
    ensures Stringify(a, le) == Stringify(b, le) <==> Same(a, b)
  {
    if Same(a, b) { SamePrints(a, b, le); }
    if Stringify(a, le) == Stringify(b, le) {
      assert Stringify(a, le) + [] == Stringify(b, le) + [];
      Unambiguous(a, b, [], [], le);
    }
  }
}
