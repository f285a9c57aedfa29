/**
 A small model of the Ruby values that flow through a bulk action's shared
 arguments, and of the few core-library operations the bulk action applies to
 them: truthiness, `Hash#key?` and `Hash#fetch`, `Enumerable#find` (modelled by
 `FindIndex`, the index of the first match, then reading the element there),
 `Kernel#Array` and `String#downcase`.
 */
module RubyValues {
  import opened Wrappers

  /** A Ruby value. A Hash keeps its entries in insertion order, as Ruby does. */
  datatype Value =
    | Nil
    | Bool(b: bool)
    | Int(n: int)
    | Str(s: string)
    | Sym(name: string)
    | List(items: seq<Value>)
    | Hash(entries: seq<(Value, Value)>)

  /** Ruby treats exactly `nil` and `false` as false in conditions and in `||`. */
  predicate Truthy(v: Value) {
    !v.Nil? && v != Bool(false)
  }

  /** `a || b`: the left operand when it is truthy, otherwise the right one. */
  function Or(a: Value, b: Value): (r: Value)
    ensures Truthy(a) ==> r == a
    ensures !Truthy(a) ==> r == b
  {
    if Truthy(a) then a else b
  }

  /** The position of the first element of `s` that satisfies `p`. `Enumerable#find`
      is this position followed by reading `s[i]`; None stands for find's nil. */
  function FindIndex<T>(s: seq<T>, p: T -> bool): (r: Option<nat>)
    ensures r.Some? ==> r.value < |s| && p(s[r.value])
    ensures r.Some? ==> forall j | 0 <= j < r.value :: !p(s[j])
    ensures r.None? ==> forall j | 0 <= j < |s| :: !p(s[j])
  {
    if |s| == 0 then None
    else if p(s[0]) then Some(0)
    else
      match FindIndex(s[1..], p)
      case None => None
      case Some(i) => Some(i + 1)
  }

  /** `Hash#key?`: `h` is a Hash with an entry under `k`. */
  predicate HasKey(h: Value, k: Value) {
    h.Hash? && FindIndex(h.entries, (e: (Value, Value)) => e.0 == k).Some?
  }

  /** `Hash#fetch` on a key that is present. A Ruby Hash holds one entry per key,
      so the first entry under `k` is the entry under `k`. */
  function Fetch(h: Value, k: Value): (r: Value)
    requires HasKey(h, k)
    ensures exists i | 0 <= i < |h.entries| :: h.entries[i] == (k, r)
  {
    var i := FindIndex(h.entries, (e: (Value, Value)) => e.0 == k).value;
    assert h.entries[i] == (k, h.entries[i].1);
    h.entries[i].1
  }

  /** `Kernel#Array`: nil becomes [], an Array stays itself, a Hash becomes its
      list of [key, value] pairs, and anything else is wrapped in a one-element list. */
  function ToArray(v: Value): (r: seq<Value>)
    ensures v.Nil? ==> r == []
    ensures v.List? ==> r == v.items
    ensures v.Hash? ==> |r| == |v.entries|
    ensures v.Hash? ==> forall i | 0 <= i < |v.entries| :: r[i] == List([v.entries[i].0, v.entries[i].1])
    ensures !(v.Nil? || v.List? || v.Hash?) ==> r == [v]
  {
    match v
    case Nil => []
    case List(items) => items
    case Hash(entries) => seq(|entries|, i requires 0 <= i < |entries| => List([entries[i].0, entries[i].1]))
    case _ => [v]
  }

  predicate IsUpper(c: char) {
    'A' <= c <= 'Z'
  }

  /** `String#downcase` on one character (ASCII letters only). */
  function LowerChar(c: char): (l: char) {
    if IsUpper(c) then (c as int + 32) as char else c
  }

  /** `String#downcase`: every upper-case letter is replaced by its lower-case
      letter, everything else is kept, and the length does not change. */
  function Downcase(s: string): (r: string)
    ensures |r| == |s|
    ensures forall i | 0 <= i < |r| :: !IsUpper(r[i])
    ensures forall i | 0 <= i < |s| && !IsUpper(s[i]) :: r[i] == s[i]
    ensures forall i | 0 <= i < |s| && IsUpper(s[i]) :: r[i] as int == s[i] as int + 32
  {
    if |s| == 0 then "" else [LowerChar(s[0])] + Downcase(s[1..])
  }

  /** Lower-casing twice is lower-casing once. */
  lemma DowncaseIdempotent(s: string)
    ensures Downcase(Downcase(s)) == Downcase(s)
  {
    var d := Downcase(s);
    var dd := Downcase(d);
    assert |dd| == |d|;
    forall i | 0 <= i < |d| ensures dd[i] == d[i] {
    }
  }
}
