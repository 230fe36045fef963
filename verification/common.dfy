/** Small value types shared by every module: an optional value, a result
    that carries the error message a JavaScript `throw` would carry, and the
    right-biased override that both JavaScript default parameters and
    webpack-merge apply to a missing field. */
module Common {

  datatype Option<+T> = None | Some(value: T) {

    /** The value, or `default` when absent (a destructuring default). */
    function GetOr(default: T): T {
      match this
      case Some(v) => v
      case None => default
    }
  }

  /** `Ok` carries a value, `Err` the message of the error the source throws. */
  datatype Result<+T> = Ok(value: T) | Err(error: string)

  /** A present overriding value wins; otherwise the base value is kept. */
  function Override<T>(base: Option<T>, over: Option<T>): (r: Option<T>)
    ensures over.Some? ==> r == over
    ensures over.None? ==> r == base
  {
    if over.Some? then over else base
  }

  /** Key-wise merge of two string maps in which the second map wins. */
  function MergeMaps(base: Option<map<string, string>>, over: Option<map<string, string>>): (r: map<string, string>)
    ensures r.Keys == (if base.Some? then base.value.Keys else {}) + (if over.Some? then over.value.Keys else {})
    ensures over.Some? ==> forall k :: k in over.value ==> k in r && r[k] == over.value[k]
    ensures base.Some? ==> forall k :: k in base.value && (over.None? || k !in over.value) ==> k in r && r[k] == base.value[k]
    ensures base.None? && over.None? ==> r == map[]
  {
    base.GetOr(map[]) + over.GetOr(map[])
  }
}

/** Sequence and string helpers with the exact semantics of the JavaScript
    built-ins the source calls (`startsWith`, `split`, `filter(Boolean)`). */
module Strings {

  predicate StartsWith(s: string, prefix: string) {
    |prefix| <= |s| && s[..|prefix|] == prefix
  }

  /** `parts.join(sep)` for a non-empty list of parts. */
  function Join(parts: seq<string>, sep: char): string
    requires |parts| >= 1
  {
    if |parts| == 1 then parts[0] else parts[0] + [sep] + Join(parts[1..], sep)
  }

  /** `s.split(sep)`: the pieces between separators, empty pieces included. */
  function Split(s: string, sep: char): (parts: seq<string>)
    ensures |parts| >= 1
    ensures forall i :: 0 <= i < |parts| ==> sep !in parts[i]
    ensures Join(parts, sep) == s
    decreases |s|
  {
    if |s| == 0 then [""]
    else
      var rest := Split(s[1..], sep);
      if s[0] == sep then
        [""] + rest
      else
        assert Join([[s[0]] + rest[0]] + rest[1..], sep) == [s[0]] + Join(rest, sep);
        [[s[0]] + rest[0]] + rest[1..]
  }

  /** Splitting a joined list gives the list back when no part holds the separator. */
  lemma {:induction false} SplitJoin(parts: seq<string>, sep: char)
    requires |parts| >= 1
    requires forall i :: 0 <= i < |parts| ==> sep !in parts[i]
    ensures Split(Join(parts, sep), sep) == parts
    decreases |parts|, |parts[0]|
  {
    var p := parts[0];
    if |parts| == 1 {
      if |p| > 0 {
        SplitJoin([p[1..]], sep);
        assert p == [p[0]] + p[1..];
      }
    } else {
      var tail := Join(parts[1..], sep);
      if |p| == 0 {
        SplitJoin(parts[1..], sep);
        assert Join(parts, sep) == [sep] + tail;
        assert (Join(parts, sep))[1..] == tail;
      } else {
        var shorter := [p[1..]] + parts[1..];
        assert shorter[1..] == parts[1..];
        SplitJoin(shorter, sep);
        assert p[0] != sep by { assert p[0] in parts[0]; }
        assert Join(parts, sep)[1..] == Join(shorter, sep);
        assert p == [p[0]] + p[1..];
        assert parts == [[p[0]] + p[1..]] + parts[1..];
      }
    }
  }

  /** `list.filter(Boolean)` on strings: keeps the non-empty ones, in order. */
  function NonEmpty(list: seq<string>): (r: seq<string>)
    ensures forall i :: 0 <= i < |r| ==> r[i] != [] && r[i] in list
    ensures forall x :: x in list && x != [] ==> x in r
    ensures |r| <= |list|
  {
    if |list| == 0 then []
    else if list[0] == [] then NonEmpty(list[1..])
    else [list[0]] + NonEmpty(list[1..])
  }

  /** Filtering distributes over concatenation, so the kept strings stay in
      their order and keep their multiplicity. */
  lemma {:induction false} NonEmptyAppend(a: seq<string>, b: seq<string>)
    ensures NonEmpty(a + b) == NonEmpty(a) + NonEmpty(b)
    decreases |a|
  {
    if |a| == 0 {
      assert a + b == b;
    } else {
      assert (a + b)[1..] == a[1..] + b;
      NonEmptyAppend(a[1..], b);
    }
  }

  /** A one-element list keeps its element exactly when it is not empty. */
  lemma NonEmptySingle(x: string)
    ensures NonEmpty([x]) == if x == [] then [] else [x]
  {
    assert [x][1..] == [];
  }

  /** Filtering a list with no empty string leaves it as it is. */
  lemma {:induction false} NonEmptyKeepsAll(list: seq<string>)
    requires forall i :: 0 <= i < |list| ==> list[i] != []
    ensures NonEmpty(list) == list
    decreases |list|
  {
    if |list| > 0 {
      NonEmptyKeepsAll(list[1..]);
    }
  }

  /** Joining with one more, empty, part appends one separator. */
  lemma {:induction false} JoinEmptyLast(parts: seq<string>, sep: char)
    requires |parts| >= 1
    ensures Join(parts + [""], sep) == Join(parts, sep) + [sep]
    decreases |parts|
  {
    if |parts| == 1 {
      assert (parts + [""])[1..] == [""];
    } else {
      assert (parts + [""])[1..] == parts[1..] + [""];
      JoinEmptyLast(parts[1..], sep);
    }
  }

  /** Number of occurrences of `x` in `s`. */
  function Count<T(==)>(s: seq<T>, x: T): nat {
    if |s| == 0 then 0 else (if s[0] == x then 1 else 0) + Count(s[1..], x)
  }

  lemma {:induction false} CountAppend<T>(a: seq<T>, b: seq<T>, x: T)
    ensures Count(a + b, x) == Count(a, x) + Count(b, x)
    decreases |a|
  {
    if |a| > 0 {
      assert (a + b)[0] == a[0];
      assert (a + b)[1..] == a[1..] + b;
      CountAppend(a[1..], b, x);
    } else {
      assert a + b == b;
    }
  }

  lemma {:induction false} CountAbsent<T>(s: seq<T>, x: T)
    ensures Count(s, x) == 0 <==> x !in s
    decreases |s|
  {
    if |s| > 0 {
      CountAbsent(s[1..], x);
      assert s == [s[0]] + s[1..];
    }
  }
}
