/** The canonical text of a JSON value (client/a2x-client.ts, `canonicalJson`). */
module CanonicalJson {
  import opened Options

  /** A number is the text JavaScript prints for it, so 0 and -0 are one value. `Alien`
      is anything else an object can hold: NaN, infinities, functions, big integers. */
  datatype Json =
    | Null
    | Undefined
    | Str(s: string)
    | Bool(b: bool)
    | Num(repr: string)
    | Arr(items: Items)
    | Obj(fields: Fields)
    | Alien

  datatype Items = Nil | Cons(head: Json, tail: Items)

  /** An object's own entries in insertion order. */
  datatype Fields = NoFields | Field(key: string, value: Json, rest: Fields)

  // ---- Quoting --------------------------------------------------------------------------------

  function Hex(d: int): char
    requires 0 <= d < 16
  {
    if d < 10 then '0' + d as char else 'a' + (d - 10) as char
  }

  /** What follows the backslash in a two-character escape. */
  function Short(c: char): Option<char> {
    if c == '\"' then Some('\"')
    else if c == '\\' then Some('\\')
    else if c == 8 as char then Some('b')
    else if c == 9 as char then Some('t')
    else if c == 10 as char then Some('n')
    else if c == 12 as char then Some('f')
    else if c == 13 as char then Some('r')
    else None
  }

  function Escape(c: char): (r: string)
    ensures r != ""
  {
    if Short(c).Some? then ['\\', Short(c).value]
    else if c < 32 as char then ['\\', 'u', '0', '0', Hex(c as int / 16), Hex(c as int % 16)]
    else [c]
  }

  function Escaped(s: string): string {
    if s == "" then "" else Escape(s[0]) + Escaped(s[1..])
  }

  function Quote(s: string): string {
    "\"" + Escaped(s) + "\""
  }

  // ---- The canonical text ----------------------------------------------------------------------

  /** `Array.prototype.sort` on keys: code unit order. */
  predicate Less(a: string, b: string) {
    if b == "" then false
    else if a == "" then true
    else if a[0] != b[0] then a[0] < b[0]
    else Less(a[1..], b[1..])
  }

  function Insert(key: string, value: Json, fs: Fields): Fields {
    if fs.NoFields? || Less(key, fs.key) then Field(key, value, fs)
    else Field(fs.key, fs.value, Insert(key, value, fs.rest))
  }

  /** Every object's entries sorted by key. */
  function Norm(v: Json): Json {
    match v
    case Arr(items) => Arr(NormItems(items))
    case Obj(fields) => Obj(NormFields(fields))
    case _ => v
  }

  function NormItems(items: Items): Items {
    if items.Nil? then Nil else Cons(Norm(items.head), NormItems(items.tail))
  }

  function NormFields(fs: Fields): Fields {
    if fs.NoFields? then NoFields else Insert(fs.key, Norm(fs.value), NormFields(fs.rest))
  }

  function Text(v: Json): string {
    match v
    case Null => "null"
    case Undefined => "undefined"
    case Str(s) => "string:" + Quote(s)
    case Bool(b) => "boolean:" + (if b then "true" else "false")
    case Num(repr) => "number:" + repr
    case Arr(items) => "[" + TextItems(items) + "]"
    case Obj(fields) => "{" + TextFields(fields) + "}"
    case Alien => ""
  }

  function TextItems(items: Items): string {
    match items
    case Nil => ""
    case Cons(head, Nil) => Text(head)
    case Cons(head, tail) => Text(head) + "," + TextItems(tail)
  }

  function TextFields(fs: Fields): string {
    match fs
    case NoFields => ""
    case Field(key, value, NoFields) => Quote(key) + ":" + Text(value)
    case Field(key, value, rest) => Quote(key) + ":" + Text(value) + "," + TextFields(rest)
  }

  predicate IsJson(v: Json) {
    match v
    case Arr(items) => ItemsAreJson(items)
    case Obj(fields) => FieldsAreJson(fields)
    case Alien => false
    case _ => true
  }

  predicate ItemsAreJson(items: Items) {
    items.Cons? ==> IsJson(items.head) && ItemsAreJson(items.tail)
  }

  predicate FieldsAreJson(fs: Fields) {
    fs.Field? ==> IsJson(fs.value) && FieldsAreJson(fs.rest)
  }

  /** `None` is the `TypeError`. */
  function Canonical(v: Json): Option<string> {
    if IsJson(v) then Some(Text(Norm(v))) else None
  }

  // ---- Values JavaScript can hold -----------------------------------------------------------------

  function Lookup(fs: Fields, key: string): Option<Json> {
    if fs.NoFields? then None else if fs.key == key then Some(fs.value) else Lookup(fs.rest, key)
  }

  function Without(fs: Fields, key: string): Fields {
    if fs.NoFields? then NoFields
    else if fs.key == key then fs.rest
    else Field(fs.key, fs.value, Without(fs.rest, key))
  }

  predicate IsNumberText(repr: string) {
    forall c | c in repr :: c !in ",]}"
  }

  /** Keys are distinct, and a number prints without JSON punctuation. */
  predicate Real(v: Json) {
    match v
    case Num(repr) => IsNumberText(repr)
    case Arr(items) => RealItems(items)
    case Obj(fields) => RealFields(fields)
    case _ => true
  }

  predicate RealItems(items: Items) {
    items.Cons? ==> Real(items.head) && RealItems(items.tail)
  }

  predicate RealFields(fs: Fields) {
    fs.Field? ==> Real(fs.value) && Lookup(fs.rest, fs.key).None? && RealFields(fs.rest)
  }

  /** Equal up to the order of object keys. */
  predicate Same(v: Json, w: Json) {
    match v
    case Arr(items) => w.Arr? && SameItems(items, w.items)
    case Obj(fields) => w.Obj? && SameFields(fields, w.fields)
    case _ => v == w
  }

  predicate SameItems(a: Items, b: Items) {
    if a.Nil? then b.Nil? else b.Cons? && Same(a.head, b.head) && SameItems(a.tail, b.tail)
  }

  predicate SameFields(a: Fields, b: Fields) {
    if a.NoFields? then b.NoFields?
    else
      && Lookup(b, a.key).Some? && Same(a.value, Lookup(b, a.key).value)
      && SameFields(a.rest, Without(b, a.key))
  }

  // ---- Reading the text back --------------------------------------------------------------------

  /** Where a value's text may end. */
  predicate Stop(rest: string) {
    rest == "" || rest[0] in ",]}"
  }

  lemma EscapePrefix(c: char, d: char, a: string, b: string)
    requires Escape(c) + a == Escape(d) + b
    ensures c == d && a == b
  {
    var s, t := Escape(c) + a, Escape(d) + b;
    assert s[0] == Escape(c)[0] && t[0] == Escape(d)[0];
    if Escape(c)[0] == '\\' {
      assert s[1] == Escape(c)[1] && t[1] == Escape(d)[1];
      if Escape(c)[1] == 'u' {
        assert s[4] == Escape(c)[4] && t[4] == Escape(d)[4];
        assert s[5] == Escape(c)[5] && t[5] == Escape(d)[5];
      }
    }
    assert |Escape(c)| == |Escape(d)|;
    assert a == s[|Escape(c)|..] && b == t[|Escape(d)|..];
  }

  lemma EscapedHead(s: string, a: string)
    ensures var x := Escaped(s) + "\"" + a; x != "" && (x[0] == '\"' <==> s == "")
  {
    if s != "" {
      assert (Escaped(s) + "\"" + a)[0] == Escape(s[0])[0];
    }
  }

  lemma EscapedSplit(s: string, a: string)
    requires s != ""
    ensures Escaped(s) + "\"" + a == Escape(s[0]) + (Escaped(s[1..]) + "\"" + a)
  {
  }

  lemma {:induction false} EscapedPrefix(s: string, t: string, a: string, b: string)
    requires Escaped(s) + "\"" + a == Escaped(t) + "\"" + b
    ensures s == t && a == b
  {
    EscapedHead(s, a);
    EscapedHead(t, b);
    if s == "" {
      assert "" + "\"" + a == "\"" + a && "" + "\"" + b == "\"" + b;
      Cut("\"", a, b);
    } else {
      EscapedSplit(s, a);
      EscapedSplit(t, b);
      EscapePrefix(s[0], t[0], Escaped(s[1..]) + "\"" + a, Escaped(t[1..]) + "\"" + b);
      EscapedPrefix(s[1..], t[1..], a, b);
      assert s == [s[0]] + s[1..] && t == [t[0]] + t[1..];
    }
  }

  /** A quoted string says where it ends. */
  lemma QuotePrefix(s: string, t: string, a: string, b: string)
    requires Quote(s) + a == Quote(t) + b
    ensures s == t && a == b
  {
    assert (Quote(s) + a)[1..] == Escaped(s) + "\"" + a;
    assert (Quote(t) + b)[1..] == Escaped(t) + "\"" + b;
    EscapedPrefix(s, t, a, b);
  }

  /** Where the first punctuation character stands. */
  function Munch(x: string): nat {
    if Stop(x) then 0 else 1 + Munch(x[1..])
  }

  lemma {:induction false} MunchIs(r: string, a: string)
    requires IsNumberText(r) && Stop(a)
    ensures Munch(r + a) == |r|
  {
    if r == "" {
      assert r + a == a;
    } else {
      assert (r + a)[1..] == r[1..] + a;
      MunchIs(r[1..], a);
    }
  }

  lemma NumberPrefix(r: string, s: string, a: string, b: string)
    requires r + a == s + b && IsNumberText(r) && IsNumberText(s) && Stop(a) && Stop(b)
    ensures r == s && a == b
  {
    MunchIs(r, a);
    MunchIs(s, b);
    assert r == (r + a)[..|r|] && s == (s + b)[..|s|];
    Cut(r, a, b);
  }

  /** The first and third characters tell the kinds apart. */
  function Mark(v: Json): char {
    match v
    case Null => 'n'
    case Num(_) => 'm'
    case Undefined => 'u'
    case Str(_) => 's'
    case Bool(_) => 'b'
    case Arr(_) => '['
    case Obj(_) => '{'
    case Alien => ' '
  }

  lemma TextMark(v: Json, a: string)
    requires !v.Alien?
    ensures var t := Text(v) + a;
            && t != "" && t[0] == (if v.Num? then 'n' else Mark(v))
            && (v.Null? ==> |t| >= 3 && t[2] == 'l') && (v.Num? ==> |t| >= 3 && t[2] == 'm')
  {
  }

  lemma SameKind(v: Json, w: Json, a: string, b: string)
    requires !v.Alien? && !w.Alien? && Text(v) + a == Text(w) + b
    ensures Mark(v) == Mark(w)
  {
    TextMark(v, a);
    TextMark(w, b);
  }

  lemma Cut(tag: string, x: string, y: string)
    requires tag + x == tag + y
    ensures x == y
  {
    assert (tag + x)[|tag|..] == x && (tag + y)[|tag|..] == y;
  }

  lemma Assoc(a: string, b: string, c: string)
    ensures a + b + c == a + (b + c)
  {
  }

  lemma BoolPrefix(p: bool, q: bool, a: string, b: string)
    requires (if p then "true" else "false") + a == (if q then "true" else "false") + b
    ensures p == q && a == b
  {
    var x, y := (if p then "true" else "false") + a, (if q then "true" else "false") + b;
    assert x[0] == (if p then 't' else 'f') && y[0] == (if q then 't' else 'f');
    assert x[if p then 4 else 5..] == a && y[if q then 4 else 5..] == b;
  }

  /** Numbers print without punctuation, throughout. */
  predicate Numbers(v: Json) {
    match v
    case Num(repr) => IsNumberText(repr)
    case Arr(items) => NumbersInItems(items)
    case Obj(fields) => NumbersInFields(fields)
    case _ => true
  }

  predicate NumbersInItems(items: Items) {
    items.Cons? ==> Numbers(items.head) && NumbersInItems(items.tail)
  }

  predicate NumbersInFields(fs: Fields) {
    fs.Field? ==> Numbers(fs.value) && NumbersInFields(fs.rest)
  }

  lemma TaggedPrefix(tag: string, x: string, y: string, a: string, b: string)
    requires tag + x + a == tag + y + b
    ensures x + a == y + b
  {
    Assoc(tag, x, a);
    Assoc(tag, y, b);
    Cut(tag, x + a, y + b);
  }

  lemma BracketPrefix(open: string, x: string, y: string, close: string, a: string, b: string)
    requires open + x + close + a == open + y + close + b
    ensures x + (close + a) == y + (close + b)
  {
    assert open + (x + (close + a)) == open + x + close + a;
    assert open + (y + (close + b)) == open + y + close + b;
    Cut(open, x + (close + a), y + (close + b));
  }

  lemma LeafPrefix(v: Json, w: Json, a: string, b: string)
    requires !v.Arr? && !v.Obj? && !v.Alien? && Mark(v) == Mark(w) && Numbers(v) && Numbers(w)
    requires Text(v) + a == Text(w) + b && Stop(a) && Stop(b)
    ensures v == w && a == b
  {
    match v
    case Null => Cut("null", a, b);
    case Undefined => Cut("undefined", a, b);
    case Str(s) =>
      TaggedPrefix("string:", Quote(s), Quote(w.s), a, b);
      QuotePrefix(s, w.s, a, b);
    case Bool(p) =>
      TaggedPrefix("boolean:", if p then "true" else "false", if w.b then "true" else "false", a, b);
      BoolPrefix(p, w.b, a, b);
    case Num(repr) =>
      TaggedPrefix("number:", repr, w.repr, a, b);
      NumberPrefix(repr, w.repr, a, b);
  }

  /** The text of a value, followed by anything a value may be followed by, determines the
      value and what follows. */
  lemma {:induction false} TextPrefix(v: Json, w: Json, a: string, b: string)
    requires IsJson(v) && IsJson(w) && Numbers(v) && Numbers(w)
    requires Text(v) + a == Text(w) + b && Stop(a) && Stop(b)
    ensures v == w && a == b
    decreases v
  {
    SameKind(v, w, a, b);
    if v.Arr? {
      BracketPrefix("[", TextItems(v.items), TextItems(w.items), "]", a, b);
      ItemsPrefix(v.items, w.items, "]" + a, "]" + b);
      Cut("]", a, b);
    } else if v.Obj? {
      BracketPrefix("{", TextFields(v.fields), TextFields(w.fields), "}", a, b);
      FieldsPrefix(v.fields, w.fields, "}" + a, "}" + b);
      Cut("}", a, b);
    } else {
      LeafPrefix(v, w, a, b);
    }
  }

  /** What follows the first item. */
  function AfterHead(tail: Items, a: string): string {
    if tail.Nil? then a else "," + (TextItems(tail) + a)
  }

  lemma ItemsSplit(x: Items, a: string)
    requires x.Cons?
    ensures TextItems(x) + a == Text(x.head) + AfterHead(x.tail, a)
  {
  }

  lemma ItemsHead(x: Items, a: string)
    requires ItemsAreJson(x) && a != "" && a[0] == ']'
    ensures var t := TextItems(x) + a; t != "" && (t[0] == ']' <==> x.Nil?)
  {
    if x.Cons? {
      ItemsSplit(x, a);
      TextMark(x.head, AfterHead(x.tail, a));
    } else {
      assert "" + a == a;
    }
  }

  lemma {:induction false} ItemsPrefix(x: Items, y: Items, a: string, b: string)
    requires ItemsAreJson(x) && ItemsAreJson(y) && NumbersInItems(x) && NumbersInItems(y)
    requires TextItems(x) + a == TextItems(y) + b && a != "" && b != "" && a[0] == ']' == b[0]
    ensures x == y && a == b
    decreases x
  {
    ItemsHead(x, a);
    ItemsHead(y, b);
    if x.Nil? {
      Cut("", a, b);
    } else {
      ItemsSplit(x, a);
      ItemsSplit(y, b);
      TextPrefix(x.head, y.head, AfterHead(x.tail, a), AfterHead(y.tail, b));
      if x.tail.Cons? && y.tail.Cons? {
        Cut(",", TextItems(x.tail) + a, TextItems(y.tail) + b);
        ItemsPrefix(x.tail, y.tail, a, b);
      }
    }
  }

  function AfterField(rest: Fields, a: string): string {
    if rest.NoFields? then a else "," + (TextFields(rest) + a)
  }

  lemma FieldsSplit(x: Fields, a: string)
    requires x.Field?
    ensures TextFields(x) + a == Quote(x.key) + (":" + (Text(x.value) + AfterField(x.rest, a)))
  {
    if x.rest.NoFields? {
      Regroup(Quote(x.key), ":", Text(x.value), "", "", a);
      assert Text(x.value) + ("" + ("" + a)) == Text(x.value) + a;
      assert Quote(x.key) + ":" + Text(x.value) + "" + "" == TextFields(x);
    } else {
      Regroup(Quote(x.key), ":", Text(x.value), ",", TextFields(x.rest), a);
    }
  }

  lemma Regroup(q: string, c: string, t: string, m: string, f: string, a: string)
    ensures q + c + t + m + f + a == q + (c + (t + (m + (f + a))))
  {
    Assoc(q + c + t + m, f, a);
    Assoc(q + c + t, m, f + a);
    Assoc(q + c, t, m + (f + a));
    Assoc(q, c, t + (m + (f + a)));
  }

  lemma FieldsHead(x: Fields, a: string)
    requires a != "" && a[0] == '}'
    ensures var t := TextFields(x) + a; t != "" && (t[0] == '}' <==> x.NoFields?)
  {
    if x.Field? {
      FieldsSplit(x, a);
    } else {
      assert "" + a == a;
    }
  }

  lemma {:induction false} FieldsPrefix(x: Fields, y: Fields, a: string, b: string)
    requires FieldsAreJson(x) && FieldsAreJson(y) && NumbersInFields(x) && NumbersInFields(y)
    requires TextFields(x) + a == TextFields(y) + b && a != "" && b != "" && a[0] == '}' == b[0]
    ensures x == y && a == b
    decreases x
  {
    FieldsHead(x, a);
    FieldsHead(y, b);
    if x.NoFields? {
      Cut("", a, b);
    } else {
      var p, q := AfterField(x.rest, a), AfterField(y.rest, b);
      FieldsSplit(x, a);
      FieldsSplit(y, b);
      QuotePrefix(x.key, y.key, ":" + (Text(x.value) + p), ":" + (Text(y.value) + q));
      Cut(":", Text(x.value) + p, Text(y.value) + q);
      TextPrefix(x.value, y.value, p, q);
      if x.rest.Field? && y.rest.Field? {
        Cut(",", TextFields(x.rest) + a, TextFields(y.rest) + b);
        FieldsPrefix(x.rest, y.rest, a, b);
      }
    }
  }

  // ---- Sorting keys --------------------------------------------------------------------------

  lemma {:induction false} LessTotal(a: string, b: string)
    ensures a == b <==> !Less(a, b) && !Less(b, a)
    ensures !(Less(a, b) && Less(b, a))
  {
    if a != "" && b != "" && a[0] == b[0] {
      LessTotal(a[1..], b[1..]);
      assert a == [a[0]] + a[1..] && b == [b[0]] + b[1..];
    }
  }

  lemma {:induction false} LessTrans(a: string, b: string, c: string)
    requires Less(a, b) && Less(b, c)
    ensures Less(a, c)
  {
    if a != "" && a[0] == b[0] && b[0] == c[0] {
      LessTrans(a[1..], b[1..], c[1..]);
    }
  }

  lemma {:induction false} InsertLookup(key: string, value: Json, fs: Fields, k: string)
    requires Lookup(fs, key).None?
    ensures Lookup(Insert(key, value, fs), k) == if k == key then Some(value) else Lookup(fs, k)
  {
    if fs.Field? && !Less(key, fs.key) {
      InsertLookup(key, value, fs.rest, k);
    }
  }

  lemma {:induction false} InsertWithout(key: string, value: Json, fs: Fields)
    requires Lookup(fs, key).None?
    ensures Without(Insert(key, value, fs), key) == fs
  {
    if fs.Field? && !Less(key, fs.key) {
      InsertWithout(key, value, fs.rest);
    }
  }

  /** Entries land in the same place whatever order they are inserted in. */
  lemma {:induction false} InsertCommutes(k: string, v: Json, l: string, w: Json, fs: Fields)
    requires k != l
    ensures Insert(k, v, Insert(l, w, fs)) == Insert(l, w, Insert(k, v, fs))
  {
    LessTotal(k, l);
    if fs.Field? {
      LessTotal(k, fs.key);
      LessTotal(l, fs.key);
      if Less(k, fs.key) && !Less(l, fs.key) {
        if Less(l, k) { LessTrans(l, k, fs.key); }
      } else if Less(l, fs.key) && !Less(k, fs.key) {
        if Less(k, l) { LessTrans(k, l, fs.key); }
      } else if !Less(l, fs.key) {
        InsertCommutes(k, v, l, w, fs.rest);
      }
    }
  }

  lemma {:induction false} NormLookup(fs: Fields, key: string)
    requires RealFields(fs)
    ensures Lookup(NormFields(fs), key)
            == if Lookup(fs, key).None? then None else Some(Norm(Lookup(fs, key).value))
  {
    if fs.Field? {
      NormLookup(fs.rest, key);
      NormLookup(fs.rest, fs.key);
      InsertLookup(fs.key, Norm(fs.value), NormFields(fs.rest), key);
    }
  }

  lemma {:induction false} WithoutReal(fs: Fields, key: string)
    requires RealFields(fs)
    ensures RealFields(Without(fs, key)) && Lookup(Without(fs, key), key).None?
    ensures forall k | k != key :: Lookup(Without(fs, key), k) == Lookup(fs, k)
  {
    if fs.Field? && fs.key != key {
      WithoutReal(fs.rest, key);
    }
  }

  /** Any entry can be taken out first. */
  lemma {:induction false} PullOut(fs: Fields, key: string)
    requires RealFields(fs) && Lookup(fs, key).Some?
    ensures NormFields(fs) == Insert(key, Norm(Lookup(fs, key).value), NormFields(Without(fs, key)))
  {
    if fs.key != key {
      PullOut(fs.rest, key);
      InsertCommutes(fs.key, Norm(fs.value), key, Norm(Lookup(fs, key).value), NormFields(Without(fs.rest, key)));
    }
  }

  lemma InsertInjective(key: string, v: Json, w: Json, a: Fields, b: Fields)
    requires Lookup(a, key).None? && Lookup(b, key).None?
    ensures Insert(key, v, a) == Insert(key, w, b) <==> v == w && a == b
  {
    InsertLookup(key, v, a, key);
    InsertLookup(key, w, b, key);
    InsertWithout(key, v, a);
    InsertWithout(key, w, b);
  }

  lemma RealLookup(fs: Fields, key: string)
    requires RealFields(fs) && Lookup(fs, key).Some?
    ensures Real(Lookup(fs, key).value)
  {
  }

  /** Sorting the keys identifies exactly the values that differ in key order alone. */
  lemma {:induction false} SameIffNorm(v: Json, w: Json)
    requires Real(v) && Real(w)
    ensures Same(v, w) <==> Norm(v) == Norm(w)
    decreases v
  {
    if v.Arr? && w.Arr? {
      SameItemsIffNorm(v.items, w.items);
    } else if v.Obj? && w.Obj? {
      SameFieldsIffNorm(v.fields, w.fields);
    }
  }

  lemma {:induction false} SameItemsIffNorm(a: Items, b: Items)
    requires RealItems(a) && RealItems(b)
    ensures SameItems(a, b) <==> NormItems(a) == NormItems(b)
    decreases a
  {
    if a.Cons? && b.Cons? {
      SameIffNorm(a.head, b.head);
      SameItemsIffNorm(a.tail, b.tail);
    }
  }

  lemma {:induction false} SameFieldsIffNorm(a: Fields, b: Fields)
    requires RealFields(a) && RealFields(b)
    ensures SameFields(a, b) <==> NormFields(a) == NormFields(b)
    decreases a
  {
    if a.Field? {
      NormLookup(a, a.key);
      NormLookup(b, a.key);
      if Lookup(b, a.key).Some? {
        var w, rest := Lookup(b, a.key).value, Without(b, a.key);
        RealLookup(b, a.key);
        WithoutReal(b, a.key);
        PullOut(b, a.key);
        SameIffNorm(a.value, w);
        SameFieldsIffNorm(a.rest, rest);
        NormLookup(a.rest, a.key);
        NormLookup(rest, a.key);
        InsertInjective(a.key, Norm(a.value), Norm(w), NormFields(a.rest), NormFields(rest));
      }
    }
  }

  lemma {:induction false} InsertKeeps(key: string, value: Json, fs: Fields)
    ensures FieldsAreJson(Insert(key, value, fs)) <==> IsJson(value) && FieldsAreJson(fs)
    ensures NumbersInFields(Insert(key, value, fs)) <==> Numbers(value) && NumbersInFields(fs)
  {
    if fs.Field? && !Less(key, fs.key) {
      InsertKeeps(key, value, fs.rest);
    }
  }

  lemma {:induction false} NormKeeps(v: Json)
    ensures IsJson(Norm(v)) <==> IsJson(v)
    ensures Real(v) ==> Numbers(Norm(v))
    decreases v
  {
    if v.Arr? {
      NormItemsKeeps(v.items);
    } else if v.Obj? {
      NormFieldsKeeps(v.fields);
    }
  }

  lemma {:induction false} NormItemsKeeps(items: Items)
    ensures ItemsAreJson(NormItems(items)) <==> ItemsAreJson(items)
    ensures RealItems(items) ==> NumbersInItems(NormItems(items))
    decreases items
  {
    if items.Cons? {
      NormKeeps(items.head);
      NormItemsKeeps(items.tail);
    }
  }

  lemma {:induction false} NormFieldsKeeps(fs: Fields)
    ensures FieldsAreJson(NormFields(fs)) <==> FieldsAreJson(fs)
    ensures RealFields(fs) ==> NumbersInFields(NormFields(fs))
    decreases fs
  {
    if fs.Field? {
      NormKeeps(fs.value);
      NormFieldsKeeps(fs.rest);
      InsertKeeps(fs.key, Norm(fs.value), NormFields(fs.rest));
    }
  }

  /** The canonical text is unambiguous: two values print alike exactly when they are equal
      up to the order of object keys. */
  lemma CanonicalIsInjective(v: Json, w: Json)
    requires Real(v) && Real(w) && IsJson(v) && IsJson(w)
    ensures Canonical(v) == Canonical(w) <==> Same(v, w)
  {
    SameIffNorm(v, w);
    NormKeeps(v);
    NormKeeps(w);
    if Text(Norm(v)) == Text(Norm(w)) {
      assert Text(Norm(v)) + "" == Text(Norm(v)) && Text(Norm(w)) + "" == Text(Norm(w));
      TextPrefix(Norm(v), Norm(w), "", "");
    }
  }

  /** Values equal up to key order are printed, or refused, alike. */
  lemma SameIsCanonical(v: Json, w: Json)
    requires Real(v) && Real(w) && Same(v, w)
    ensures Canonical(v) == Canonical(w)
  {
    SameIffNorm(v, w);
    NormKeeps(v);
    NormKeeps(w);
  }
}
