/**
 * Bodies in the `key=value&key=value` shape of application/x-www-form-urlencoded,
 * built by plain concatenation (the service applies no percent-encoding), and the
 * reading of such a body back into its fields. The reading is the partner that says
 * what a built body means: it gives back the fields exactly when no value contains `&`.
 */
module Forms {
  import opened Wrappers

  /** The pieces of `s` between occurrences of `sep`; there is always at least one. */
  function Split(s: string, sep: char): (parts: seq<string>)
    ensures |parts| >= 1
    decreases |s|
  {
    if s == [] then [[]]
    else
      var rest := Split(s[1..], sep);
      if s[0] == sep then [[]] + rest
      else [[s[0]] + rest[0]] + rest[1..]
  }

  /** `s` cut at its first `sep` into what comes before and after it. */
  function Cut(s: string, sep: char): (string, string)
    decreases |s|
  {
    if s == [] then ([], [])
    else if s[0] == sep then ([], s[1..])
    else
      var rest := Cut(s[1..], sep);
      ([s[0]] + rest.0, rest.1)
  }

  function ParseFields(parts: seq<string>): (fields: seq<(string, string)>)
    ensures |fields| == |parts|
  {
    if parts == [] then [] else [Cut(parts[0], '=')] + ParseFields(parts[1..])
  }

  /** The fields of a body: its `&`-separated pieces, each cut at its first `=`. */
  function ParseForm(body: string): seq<(string, string)> {
    ParseFields(Split(body, '&'))
  }

  /** The value of the first field named `key`. */
  function Lookup(fields: seq<(string, string)>, key: string): (r: Option<string>)
    ensures r.Some? <==> exists i :: 0 <= i < |fields| && fields[i].0 == key
    ensures r.Some? ==> exists i :: 0 <= i < |fields| && fields[i] == (key, r.value)
  {
    if fields == [] then None
    else if fields[0].0 == key then Some(fields[0].1)
    else
      var r := Lookup(fields[1..], key);
      assert forall i :: 1 <= i < |fields| ==> fields[i] == fields[1..][i - 1];
      r
  }

  lemma {:induction false} SplitPrefix(p: string, t: string, sep: char)
    requires sep !in p
    ensures Split(p + t, sep) == [p + Split(t, sep)[0]] + Split(t, sep)[1..]
    decreases |p|
  {
    if p == [] {
      assert p + t == t;
      var s := Split(t, sep);
      assert p + s[0] == s[0];
      assert [s[0]] + s[1..] == s;
    } else {
      assert (p + t)[0] == p[0];
      assert (p + t)[1..] == p[1..] + t;
      SplitPrefix(p[1..], t, sep);
      assert [p[0]] + (p[1..] + Split(t, sep)[0]) == p + Split(t, sep)[0];
    }
  }

  /** A piece without `sep` splits to itself. */
  lemma SplitWhole(p: string, sep: char)
    requires sep !in p
    ensures Split(p, sep) == [p]
  {
    SplitPrefix(p, [], sep);
    assert p + [] == p;
  }

  /** A piece without `sep` after the last `sep` is the last piece. */
  lemma {:induction false} SplitLast(t: string, p: string, sep: char)
    requires sep !in p
    ensures Split(t + [sep] + p, sep) == Split(t, sep) + [p]
    decreases |t|
  {
    var s := t + [sep] + p;
    if t == [] {
      assert s == [sep] + p && s[1..] == p;
      SplitWhole(p, sep);
    } else {
      assert s[0] == t[0];
      assert s[1..] == t[1..] + [sep] + p;
      SplitLast(t[1..], p, sep);
    }
  }

  /** A body has one more piece than it has `&` separators. */
  lemma {:induction false} SplitCount(s: string)
    ensures |Split(s, '&')| == Ampersands(s) + 1
    decreases |s|
  {
    if s != [] {
      SplitCount(s[1..]);
    }
  }

  /** Cutting at the first `sep` finds the one that ends a key without `sep`. */
  lemma {:induction false} CutField(key: string, value: string, sep: char)
    requires sep !in key
    ensures Cut(key + [sep] + value, sep) == (key, value)
    decreases |key|
  {
    if key == [] {
      assert key + [sep] + value == [sep] + value;
      assert ([sep] + value)[1..] == value;
    } else {
      var s := key + [sep] + value;
      assert s[0] == key[0];
      assert s[1..] == key[1..] + [sep] + value;
      CutField(key[1..], value, sep);
      assert [key[0]] + key[1..] == key;
    }
  }

  /** What follows the first `sep` grows with whatever is appended after it. */
  lemma {:induction false} CutAppend(s: string, t: string, sep: char)
    requires sep in s
    ensures Cut(s + t, sep) == (Cut(s, sep).0, Cut(s, sep).1 + t)
    decreases |s|
  {
    assert (s + t)[0] == s[0];
    if s[0] == sep {
      assert (s + t)[1..] == s[1..] + t;
    } else {
      assert (s + t)[1..] == s[1..] + t;
      CutAppend(s[1..], t, sep);
    }
  }

  lemma {:induction false} ParseFieldsLast(parts: seq<string>, p: string)
    ensures ParseFields(parts + [p]) == ParseFields(parts) + [Cut(p, '=')]
    decreases |parts|
  {
    if parts != [] {
      assert (parts + [p])[1..] == parts[1..] + [p];
      ParseFieldsLast(parts[1..], p);
    } else {
      assert parts + [p] == [p];
    }
  }

  /** A body of one field reads back as that field. */
  lemma ParseSingle(key: string, value: string)
    requires '&' !in key && '=' !in key && '&' !in value
    ensures ParseForm(key + "=" + value) == [(key, value)]
  {
    var piece := key + "=" + value;
    assert piece == key + ['='] + value;
    SplitWhole(piece, '&');
    CutField(key, value, '=');
    assert ParseForm(piece) == [Cut(piece, '=')] + ParseFields([]);
  }

  /** Appending `&key=value` to a body appends `(key, value)` to what it reads back as. */
  lemma ParseAppend(body: string, key: string, value: string)
    requires '&' !in key && '=' !in key && '&' !in value
    ensures ParseForm(body + "&" + key + "=" + value) == ParseForm(body) + [(key, value)]
  {
    var piece := key + "=" + value;
    assert body + "&" + key + "=" + value == body + ['&'] + piece;
    assert piece == key + ['='] + value;
    SplitLast(body, piece, '&');
    CutField(key, value, '=');
    ParseFieldsLast(Split(body, '&'), piece);
  }

  /** A key that can be read back: it holds neither `&` nor `=`. */
  predicate SafeKey(key: string) {
    '&' !in key && '=' !in key
  }

  /** `literal` is the text `key=` that opens a body. */
  predicate FirstKeyLiteral(literal: string, key: string) {
    literal == key + "=" && SafeKey(key)
  }

  /** `literal` is the text `&key=` that starts a further field. */
  predicate KeyLiteral(literal: string, key: string) {
    literal == "&" + key + "=" && SafeKey(key)
  }

  /** How many `&` a string holds. */
  function Ampersands(s: string): nat {
    if s == [] then 0 else (if s[0] == '&' then 1 else 0) + Ampersands(s[1..])
  }

  lemma {:induction false} AmpersandsConcat(a: string, b: string)
    ensures Ampersands(a + b) == Ampersands(a) + Ampersands(b)
    decreases |a|
  {
    if a == [] {
      assert a + b == b;
    } else {
      assert (a + b)[0] == a[0];
      assert (a + b)[1..] == a[1..] + b;
      AmpersandsConcat(a[1..], b);
    }
  }

  lemma {:induction false} AmpersandsZero(s: string)
    ensures Ampersands(s) == 0 <==> '&' !in s
    decreases |s|
  {
    if s != [] {
      AmpersandsZero(s[1..]);
      assert s == [s[0]] + s[1..];
    }
  }

  /** `ParseSingle` for a body written as the literal `key=` followed by the value. */
  lemma ParseSingleLiteral(literal: string, key: string, value: string)
    requires FirstKeyLiteral(literal, key) && '&' !in value
    ensures ParseForm(literal + value) == [(key, value)]
  {
    assert literal + value == key + "=" + value;
    ParseSingle(key, value);
  }

  /** The same for a value that may hold `&`: only the count of separators is known. */
  lemma AmpersandsSingleLiteral(literal: string, key: string, value: string)
    requires FirstKeyLiteral(literal, key)
    ensures Ampersands(literal + value) == Ampersands(value)
  {
    AmpersandsConcat(literal, value);
    AmpersandsConcat(key, "=");
    AmpersandsZero(key);
  }

  /** `ParseAppend` for a body extended by the literal `&key=` and then the value. */
  lemma ParseAppendLiteral(body: string, literal: string, key: string, value: string)
    requires KeyLiteral(literal, key) && '&' !in value
    ensures ParseForm(body + literal + value) == ParseForm(body) + [(key, value)]
  {
    assert body + literal + value == body + "&" + key + "=" + value;
    ParseAppend(body, key, value);
  }

  /** Extending a body by `&key=` and a value adds one separator and those of the value. */
  lemma AmpersandsAppendLiteral(body: string, literal: string, key: string, value: string)
    requires KeyLiteral(literal, key)
    ensures Ampersands(body + literal + value) == Ampersands(body) + 1 + Ampersands(value)
  {
    AmpersandsConcat(body + literal, value);
    AmpersandsConcat(body, literal);
    AmpersandsConcat("&" + key, "=");
    AmpersandsConcat("&", key);
    AmpersandsZero(key);
  }

  /** The number of fields read back grows by one for every `&` hidden inside a value. */
  lemma FieldCount(body: string)
    ensures |ParseForm(body)| == Ampersands(body) + 1
  {
    SplitCount(body);
  }
}
