/**
 * Values exchanged with the server and the small string utilities the client
 * relies on.  A JSON document is modelled the way the client sees it after
 * `QJsonDocument::toVariant()`: a string-keyed map of variants.  A missing
 * key reads as an invalid QVariant, and each conversion (`toString()`,
 * `toBool()`, `toInt()`, `toMap()`, `toList()`) then gives its default.  On a
 * variant of another type the accessors below also give the default; Qt
 * itself converts some of those (a number to a string, a string of digits to
 * an int), which is not modelled.
 */
module Common {

  datatype Option<T> = None | Some(value: T)

  /** A QVariant as produced from JSON. */
  datatype Value =
    | Null
    | Bool(b: bool)
    | Int(i: int)
    | Str(s: string)
    | List(items: seq<Value>)
    | Object(fields: map<string, Value>)

  /** A QVariantMap. */
  type Document = map<string, Value>

  /** Concatenation regrouped, for appending to a log one piece at a time. */
  lemma Reassociate<T>(a: seq<T>, b: seq<T>, c: seq<T>)
    ensures (a + b) + c == a + (b + c)
  {
  }

  /** `map.value(key)`: the stored variant, or an invalid (null) one. */
  function Get(d: Document, key: string): Value
  {
    if key in d then d[key] else Null
  }

  /** `toString()` on a variant that holds a string, "" otherwise. */
  function AsString(v: Value): string
  {
    if v.Str? then v.s else ""
  }

  /** `toBool()` on a variant that holds a boolean, false otherwise. */
  function AsBool(v: Value): bool
  {
    v.Bool? && v.b
  }

  /** `toInt()` on a variant that holds an integer, 0 otherwise. */
  function AsInt(v: Value): int
  {
    if v.Int? then v.i else 0
  }

  /** `toMap()` on a variant that holds a map, the empty map otherwise. */
  function AsDocument(v: Value): Document
  {
    if v.Object? then v.fields else map[]
  }

  /** `toList()` on a variant that holds a list, the empty list otherwise. */
  function AsList(v: Value): seq<Value>
  {
    if v.List? then v.items else []
  }

  /** `toStringList()`: the string elements of a list variant, in order. */
  function AsStringList(v: Value): seq<string>
  {
    StringsOf(AsList(v))
  }

  function StringsOf(vs: seq<Value>): seq<string>
  {
    if vs == [] then [] else [AsString(vs[0])] + StringsOf(vs[1..])
  }

  /** Number of occurrences of `c` in `s`. */
  function Count(s: string, c: char): nat
  {
    if s == [] then 0 else (if s[0] == c then 1 else 0) + Count(s[1..], c)
  }

  /**
   * `QString::split(sep)` with empty parts kept: the text between
   * consecutive separators, so "a..b" gives ["a", "", "b"] and "" gives [""].
   */
  function Split(s: string, sep: char): (parts: seq<string>)
    ensures |parts| == Count(s, sep) + 1
    ensures forall i :: 0 <= i < |parts| ==> sep !in parts[i]
    decreases |s|
  {
    if |s| == 0 then [""]
    else
      var rest := Split(s[1..], sep);
      if s[0] == sep then [""] + rest
      else [[s[0]] + rest[0]] + rest[1..]
  }

  /** `QStringList::join(sep)`. */
  function Join(parts: seq<string>, sep: char): string
  {
    if |parts| == 0 then ""
    else if |parts| == 1 then parts[0]
    else parts[0] + [sep] + Join(parts[1..], sep)
  }

  /** Joining the parts of a split gives back the original text. */
  lemma {:induction false} JoinSplit(s: string, sep: char)
    ensures Join(Split(s, sep), sep) == s
    decreases |s|
  {
    if |s| > 0 {
      var rest := Split(s[1..], sep);
      JoinSplit(s[1..], sep);
      if s[0] == sep {
        assert Join([""] + rest, sep) == "" + [sep] + Join(rest, sep) by {
          assert ([""] + rest)[1..] == rest;
        }
      } else if |rest| == 1 {
        assert Split(s, sep) == [[s[0]] + rest[0]];
      } else {
        var parts := [[s[0]] + rest[0]] + rest[1..];
        assert parts[1..] == rest[1..];
        assert Join(parts, sep) == [s[0]] + rest[0] + [sep] + Join(rest[1..], sep);
        assert [s[0]] + s[1..] == s;
      }
    }
  }

  /** A separator-free text is a single part. */
  lemma {:induction false} SplitSingle(a: string, sep: char)
    requires sep !in a
    ensures Split(a, sep) == [a]
    decreases |a|
  {
    if |a| > 0 {
      assert sep !in a[1..] by {
        forall k | 0 <= k < |a[1..]| ensures a[1..][k] != sep { assert a[1..][k] == a[k + 1]; }
      }
      SplitSingle(a[1..], sep);
      assert [a[0]] + a[1..] == a;
    }
  }

  /** Splitting `a + sep + b` with a separator-free `a` yields `a` and then the parts of `b`. */
  lemma {:induction false} SplitCons(a: string, b: string, sep: char)
    requires sep !in a
    ensures Split(a + [sep] + b, sep) == [a] + Split(b, sep)
    decreases |a|
  {
    var s := a + [sep] + b;
    if |a| == 0 {
      assert s[1..] == b;
    } else {
      assert s[1..] == a[1..] + [sep] + b;
      assert sep !in a[1..] by {
        forall k | 0 <= k < |a[1..]| ensures a[1..][k] != sep { assert a[1..][k] == a[k + 1]; }
      }
      SplitCons(a[1..], b, sep);
      assert [a[0]] + a[1..] == a;
    }
  }

  /** Splitting the join of separator-free parts gives back the parts. */
  lemma {:induction false} SplitJoin(parts: seq<string>, sep: char)
    requires |parts| >= 1
    requires forall i :: 0 <= i < |parts| ==> sep !in parts[i]
    ensures Split(Join(parts, sep), sep) == parts
    decreases |parts|
  {
    if |parts| == 1 {
      SplitSingle(parts[0], sep);
    } else {
      SplitJoin(parts[1..], sep);
      SplitCons(parts[0], Join(parts[1..], sep), sep);
      assert [parts[0]] + parts[1..] == parts;
    }
  }

  /** A name of the form `Namespace.Method` splits into exactly its two halves. */
  lemma QualifiedNameSplits(ns: string, name: string)
    requires '.' !in ns && '.' !in name
    ensures Split(ns + "." + name, '.') == [ns, name]
  {
    SplitJoin([ns, name], '.');
    assert Join([ns, name], '.') == ns + "." + name by {
      assert [ns, name][1..] == [name];
    }
  }
}
