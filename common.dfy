/** Values, truthiness and the small string operations the dialog engine relies on. */
module Common {

  datatype Option<T> = None | Some(value: T)

  /** An operation that either yields a value or raises an exception with a message. */
  datatype Result<T> = Success(value: T) | Failure(error: string)

  function GetOr<T>(o: Option<T>, default: T): T
  {
    match o
    case Some(v) => v
    case None => default
  }

  /** A JSON-like value as it sits in a parameter map or a tool result map. */
  datatype Value =
    | Nil
    | Bool(b: bool)
    | Num(n: int)
    | Str(s: string)
    | List(items: seq<Value>)
    | Dict(entries: map<string, Value>)

  /** Python truthiness: None, False, 0, "" and empty containers are falsy. */
  predicate Truthy(v: Value)
  {
    match v
    case Nil => false
    case Bool(b) => b
    case Num(n) => n != 0
    case Str(s) => |s| > 0
    case List(items) => |items| > 0
    case Dict(entries) => |entries| > 0
  }

  /** `m.get(k)` is truthy: the key is there and its value is not falsy. */
  predicate Present(m: map<string, Value>, k: string)
  {
    k in m && Truthy(m[k])
  }

  /** Merging in an empty dictionary leaves a dictionary as it was. */
  lemma MergeEmpty<K, V>(m: map<K, V>)
    ensures m + map[] == m
  {
  }

  /** `d.get(k, 0)` for a count map. */
  function Count(m: map<string, nat>, k: string): nat
  {
    if k in m then m[k] else 0
  }

  function Elems<T>(s: seq<T>): set<T>
  {
    set x | x in s
  }

  predicate NoDup<T(==)>(s: seq<T>)
  {
    forall i, j :: 0 <= i < j < |s| ==> s[i] != s[j]
  }

  /** `[p for p in names if not m.get(p)]`: the names whose value is absent or falsy, in order. */
  function MissingFrom(names: seq<string>, m: map<string, Value>): (r: seq<string>)
    ensures |r| <= |names|
  {
    if names == [] then []
    else (if Present(m, names[0]) then [] else [names[0]]) + MissingFrom(names[1..], m)
  }

  /** A name is missing exactly when it is listed and its value is absent or falsy. */
  lemma {:induction false} MissingFromMembers(names: seq<string>, m: map<string, Value>)
    ensures forall p :: p in MissingFrom(names, m) <==> p in names && !Present(m, p)
  {
    if names != [] {
      MissingFromMembers(names[1..], m);
      assert forall p :: p in names <==> p == names[0] || p in names[1..];
    }
  }

  /** Nothing is missing exactly when every name has a truthy value. */
  lemma {:induction false} MissingFromEmptyIff(names: seq<string>, m: map<string, Value>)
    ensures MissingFrom(names, m) == [] <==> forall p :: p in names ==> Present(m, p)
  {
    if names != [] {
      MissingFromEmptyIff(names[1..], m);
      assert forall p :: p in names <==> p == names[0] || p in names[1..];
    }
  }

  /** Every member of `sub` occurs in `s` in the same relative order. */
  predicate Subsequence<T(==)>(sub: seq<T>, s: seq<T>)
  {
    if sub == [] then true
    else if s == [] then false
    else if sub[0] == s[0] then Subsequence(sub[1..], s[1..])
    else Subsequence(sub, s[1..])
  }

  lemma {:induction false} MissingFromIsSubsequence(names: seq<string>, m: map<string, Value>)
    ensures Subsequence(MissingFrom(names, m), names)
  {
    if names != [] {
      MissingFromIsSubsequence(names[1..], m);
      var rest := MissingFrom(names[1..], m);
      assert names == [names[0]] + names[1..];
      if !Present(m, names[0]) {
        assert MissingFrom(names, m) == [names[0]] + rest;
        assert ([names[0]] + rest)[1..] == rest;
      } else {
        assert MissingFrom(names, m) == rest;
        SubsequenceCons(names[0], rest, names[1..]);
      }
    }
  }

  lemma {:induction false} SubsequenceCons<T>(x: T, sub: seq<T>, t: seq<T>)
    requires Subsequence(sub, t)
    ensures Subsequence(sub, [x] + t)
    decreases |t|, 1
  {
    assert ([x] + t)[1..] == t;
    if sub != [] && sub[0] == x {
      SubsequenceDropHead(sub, t);
    }
  }

  lemma {:induction false} SubsequenceDropHead<T>(sub: seq<T>, t: seq<T>)
    requires sub != [] && Subsequence(sub, t)
    ensures Subsequence(sub[1..], t)
    decreases |t|, 0
  {
    assert t == [t[0]] + t[1..];
    if sub[0] == t[0] {
      SubsequenceCons(t[0], sub[1..], t[1..]);
    } else {
      SubsequenceDropHead(sub, t[1..]);
      SubsequenceCons(t[0], sub[1..], t[1..]);
    }
  }

  // ---------------------------------------------------------------------------
  // Strings
  // ---------------------------------------------------------------------------

  lemma AppendAssociates<T>(a: seq<T>, b: seq<T>, c: seq<T>)
    ensures a + (b + c) == a + b + c
  {
  }

  /** `sub` occurs in `s` starting at index `i`. */
  predicate OccursAt(s: string, sub: string, i: int)
  {
    0 <= i && i + |sub| <= |s| && s[i..i + |sub|] == sub
  }

  /** Python's `sub in s` on strings. */
  function Contains(s: string, sub: string): (r: bool)
    ensures r <==> exists i :: OccursAt(s, sub, i)
  {
    if sub <= s then
      assert OccursAt(s, sub, 0);
      true
    else if |s| == 0 then
      assert forall i :: !OccursAt(s, sub, i);
      false
    else
      var r := Contains(s[1..], sub);
      assert forall i :: OccursAt(s[1..], sub, i) <==> OccursAt(s, sub, i + 1) by {
        forall i ensures OccursAt(s[1..], sub, i) <==> OccursAt(s, sub, i + 1) {
          if 0 <= i && i + |sub| <= |s| - 1 {
            assert s[1..][i..i + |sub|] == s[i + 1..i + 1 + |sub|];
          }
        }
      }
      assert !OccursAt(s, sub, 0);
      assert forall i :: OccursAt(s, sub, i) ==> OccursAt(s[1..], sub, i - 1);
      r
  }

  /** Python's `s.endswith(suffix)`. */
  predicate EndsWith(s: string, suffix: string)
  {
    |suffix| <= |s| && s[|s| - |suffix|..] == suffix
  }

  /** Text placed around a string keeps every substring of it. */
  lemma ContainsInside(pre: string, s: string, post: string, sub: string)
    requires Contains(s, sub)
    ensures Contains(pre + s + post, sub)
  {
    var i :| OccursAt(s, sub, i);
    assert (pre + s + post)[|pre| + i..|pre| + i + |sub|] == s[i..i + |sub|];
    assert OccursAt(pre + s + post, sub, |pre| + i);
  }

  lemma ContainsSelf(s: string)
    ensures Contains(s, s)
  {
    assert OccursAt(s, s, 0);
  }

  /** Some word of `words` is a substring of `s`: `any(w in s for w in words)`. */
  predicate ContainsAny(s: string, words: seq<string>)
  {
    exists k :: 0 <= k < |words| && Contains(s, words[k])
  }

  function LowerChar(c: char): char
  {
    if 'A' <= c <= 'Z' then (c as int + 32) as char else c
  }

  /** `str.lower()` restricted to ASCII letters. */
  function Lower(s: string): (r: string)
    ensures |r| == |s|
    ensures forall i :: 0 <= i < |s| ==> r[i] == LowerChar(s[i])
  {
    if s == [] then [] else [LowerChar(s[0])] + Lower(s[1..])
  }

  /** The characters `str.strip()` removes: those for which `str.isspace()` holds. */
  predicate IsSpace(c: char)
  {
    || c == ' ' || ('\t' <= c <= '\r') || ('\U{1C}' <= c <= '\U{1F}')
    || c == '\U{85}' || c == '\U{A0}' || c == '\U{1680}' || ('\U{2000}' <= c <= '\U{200A}')
    || c == '\U{2028}' || c == '\U{2029}' || c == '\U{202F}' || c == '\U{205F}' || c == '\U{3000}'
  }

  function TrimLeft(s: string): (r: string)
    ensures |r| <= |s| && r == s[|s| - |r|..]
    ensures r == [] || !IsSpace(r[0])
    ensures forall i :: 0 <= i < |s| - |r| ==> IsSpace(s[i])
  {
    if s != [] && IsSpace(s[0]) then TrimLeft(s[1..]) else s
  }

  function TrimRight(s: string): (r: string)
    ensures |r| <= |s| && r == s[..|r|]
    ensures r == [] || !IsSpace(r[|r| - 1])
    ensures forall i :: |r| <= i < |s| ==> IsSpace(s[i])
  {
    if s != [] && IsSpace(s[|s| - 1]) then TrimRight(s[..|s| - 1]) else s
  }

  /** `str.strip()` with no argument. */
  function Strip(s: string): string
  {
    TrimRight(TrimLeft(s))
  }

  /** Every character is blank. */
  predicate Blank(s: string)
  {
    forall i :: 0 <= i < |s| ==> IsSpace(s[i])
  }

  lemma StripEmptyIffBlank(s: string)
    ensures Strip(s) == [] <==> Blank(s)
  {
    var l := TrimLeft(s);
    assert l != [] ==> l[0] == s[|s| - |l|];
  }

  /** `s.replace(a, b)` for single characters. */
  function ReplaceChar(s: string, a: char, b: char): (r: string)
    ensures |r| == |s|
    ensures forall i :: 0 <= i < |s| ==> r[i] == if s[i] == a then b else s[i]
  {
    if s == [] then [] else [if s[0] == a then b else s[0]] + ReplaceChar(s[1..], a, b)
  }

  /** `sep.join(items)`. */
  function Join(sep: string, items: seq<string>): string
  {
    if items == [] then ""
    else if |items| == 1 then items[0]
    else items[0] + sep + Join(sep, items[1..])
  }
}
