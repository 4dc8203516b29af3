/** The loosely shaped values the dashboard receives from the backend and
    from browser storage, with the JavaScript operations the pages apply to
    them: property reads and writes, truthiness, `||`, `??`, `Number()`,
    `String()` and the enumeration order of an object's keys. */
module Json {
  import opened Text
  import opened Seqs

  datatype Option<T> = None | Some(value: T)

  /** A JavaScript value as the pages see it. Objects keep their members in
      creation order; enumeration order is derived by `OwnKeyOrder`. */
  datatype Value =
    | Undefined
    | Null
    | Bool(b: bool)
    | Num(n: real)
    | Str(s: string)
    | Arr(items: seq<Value>)
    | Obj(members: seq<Member>)

  datatype Member = Member(key: string, val: Value)

  function Keys(ms: seq<Member>): (ks: seq<string>)
    ensures |ks| == |ms|
    ensures forall i :: 0 <= i < |ms| ==> ks[i] == ms[i].key
  {
    if ms == [] then [] else [ms[0].key] + Keys(ms[1..])
  }

  /** The value stored under key k (the first member carrying it). */
  function Lookup(ms: seq<Member>, k: string): (r: Option<Value>)
    ensures r.None? <==> k !in Keys(ms)
    ensures r.Some? ==> Member(k, r.value) in ms
  {
    if ms == [] then None
    else if ms[0].key == k then Some(ms[0].val)
    else Lookup(ms[1..], k)
  }

  /** Property read `v.k`; the values other than objects carry none of the
      named properties the pages read. */
  function Get(v: Value, k: string): Value
  {
    if v.Obj? then
      match Lookup(v.members, k)
      case Some(x) => x
      case None => Undefined
    else Undefined
  }

  /** A property read on an object literal finds the first member with that
      key. */
  lemma {:induction false} LookupAt(ms: seq<Member>, i: nat)
    requires i < |ms|
    requires forall j :: 0 <= j < i ==> ms[j].key != ms[i].key
    ensures Lookup(ms, ms[i].key) == Some(ms[i].val)
    decreases i
  {
    if i > 0 {
      LookupAt(ms[1..], i - 1);
    }
  }

  /** A key that no member carries reads as absent. */
  lemma LookupMissing(ms: seq<Member>, k: string)
    requires forall i :: 0 <= i < |ms| ==> ms[i].key != k
    ensures Lookup(ms, k) == None
  {
  }

  /** Property assignment `o.k = x`: an existing member keeps its place and
      takes the new value; a new key is appended. */
  function Put(ms: seq<Member>, k: string, x: Value): (r: seq<Member>)
    ensures Lookup(r, k) == Some(x)
    ensures Keys(r) == if k in Keys(ms) then Keys(ms) else Keys(ms) + [k]
  {
    if ms == [] then [Member(k, x)]
    else if ms[0].key == k then
      KeysCons(Member(k, x), ms[1..]);
      LookupCons(Member(k, x), ms[1..], k);
      [Member(k, x)] + ms[1..]
    else
      var rest := Put(ms[1..], k, x);
      KeysCons(ms[0], rest);
      LookupCons(ms[0], rest, k);
      KeysAfterOther(ms, k);
      AppendAssoc([ms[0].key], Keys(ms[1..]), [k]);
      [ms[0]] + rest
  }

  lemma KeysCons(m: Member, ms: seq<Member>)
    ensures Keys([m] + ms) == [m.key] + Keys(ms)
  {
    assert ([m] + ms)[1..] == ms;
  }

  lemma LookupCons(m: Member, ms: seq<Member>, k: string)
    ensures Lookup([m] + ms, k) == if m.key == k then Some(m.val) else Lookup(ms, k)
  {
    assert ([m] + ms)[1..] == ms;
  }

  /** A four-member object literal with distinct keys reads each key as its
      value. */
  lemma LookupFour(a: string, b: string, c: string, d: string, x: Value, y: Value, z: Value, w: Value)
    requires a != b && a != c && a != d && b != c && b != d && c != d
    ensures var o := Obj([Member(a, x), Member(b, y), Member(c, z), Member(d, w)]);
            Get(o, a) == x && Get(o, b) == y && Get(o, c) == z && Get(o, d) == w
  {
    var t3: seq<Member> := [Member(d, w)];
    var t2 := [Member(c, z)] + t3;
    var t1 := [Member(b, y)] + t2;
    assert [Member(a, x), Member(b, y), Member(c, z), Member(d, w)] == [Member(a, x)] + t1;
    LookupCons(Member(a, x), t1, a);
    LookupCons(Member(a, x), t1, b);
    LookupCons(Member(a, x), t1, c);
    LookupCons(Member(a, x), t1, d);
    LookupCons(Member(b, y), t2, b);
    LookupCons(Member(b, y), t2, c);
    LookupCons(Member(b, y), t2, d);
    LookupCons(Member(c, z), t3, c);
    LookupCons(Member(c, z), t3, d);
    LookupAt(t3, 0);
  }

  /** A four-member object literal reads any other key as absent. */
  lemma LookupMissingFour(a: string, b: string, c: string, d: string, x: Value, y: Value, z: Value, w: Value, k: string)
    requires k != a && k != b && k != c && k != d
    ensures Get(Obj([Member(a, x), Member(b, y), Member(c, z), Member(d, w)]), k) == Undefined
  {
    var t3: seq<Member> := [Member(d, w)];
    var t2 := [Member(c, z)] + t3;
    var t1 := [Member(b, y)] + t2;
    assert [Member(a, x), Member(b, y), Member(c, z), Member(d, w)] == [Member(a, x)] + t1;
    LookupCons(Member(a, x), t1, k);
    LookupCons(Member(b, y), t2, k);
    LookupCons(Member(c, z), t3, k);
    LookupMissing(t3, k);
  }

  /** Past a first member with another key, k is present exactly when it is
      present in the rest. */
  lemma KeysAfterOther(ms: seq<Member>, k: string)
    requires ms != [] && ms[0].key != k
    ensures Keys(ms) == [ms[0].key] + Keys(ms[1..])
    ensures k in Keys(ms) <==> k in Keys(ms[1..])
  {
  }

  /** Assigning one property leaves every other property as it was. */
  lemma {:induction false} PutOther(ms: seq<Member>, k: string, x: Value, j: string)
    requires j != k
    ensures Lookup(Put(ms, k, x), j) == Lookup(ms, j)
    decreases ms
  {
    if ms != [] && ms[0].key != k {
      PutOther(ms[1..], k, x, j);
    }
  }

  /** Assigning a property twice leaves only the second value. */
  lemma {:induction false} PutPut(ms: seq<Member>, k: string, x: Value, y: Value)
    ensures Put(Put(ms, k, x), k, y) == Put(ms, k, y)
    decreases ms
  {
    if ms != [] && ms[0].key != k {
      PutPut(ms[1..], k, x, y);
    }
  }

  /** Assigning a property the value it already holds changes nothing. */
  lemma {:induction false} PutExisting(ms: seq<Member>, k: string)
    requires Lookup(ms, k).Some?
    ensures Put(ms, k, Lookup(ms, k).value) == ms
    decreases ms
  {
    assert ms == [ms[0]] + ms[1..];
    if ms[0].key != k {
      assert Lookup(ms, k) == Lookup(ms[1..], k);
      PutExisting(ms[1..], k);
    }
  }

  /** Reassigning a key after another key was assigned is the same as
      assigning it the last value in the first place. */
  lemma PutOverOther(ms: seq<Member>, a: string, b: string, x: Value, y: Value, z: Value)
    requires a != b
    ensures Put(Put(Put(ms, a, x), b, z), a, y) == Put(Put(ms, a, y), b, z)
  {
    assert a in Keys(Put(ms, a, x));
    PutCommute(Put(ms, a, x), b, z, a, y);
    PutPut(ms, a, x, y);
  }

  /** Assignments to two different keys commute unless both append a new
      member, in which case the order of the keys would differ. */
  lemma {:induction false} PutCommute(ms: seq<Member>, k: string, x: Value, j: string, y: Value)
    requires k != j
    requires k in Keys(ms) || j in Keys(ms)
    ensures Put(Put(ms, k, x), j, y) == Put(Put(ms, j, y), k, x)
    decreases ms
  {
    if ms[0].key != k && ms[0].key != j {
      PutCommute(ms[1..], k, x, j, y);
    }
  }

  predicate IsNullish(v: Value) { v.Undefined? || v.Null? }

  /** JavaScript truthiness (NaN is not a value of this model). */
  predicate Truthy(v: Value)
  {
    match v
    case Undefined => false
    case Null => false
    case Bool(b) => b
    case Num(n) => n != 0.0
    case Str(s) => s != ""
    case Arr(_) => true
    case Obj(_) => true
  }

  /** `a || b`. */
  function Or(a: Value, b: Value): (r: Value)
    ensures Truthy(a) ==> r == a
    ensures !Truthy(a) ==> r == b
  {
    if Truthy(a) then a else b
  }

  /** `a ?? b`. */
  function Coalesce(a: Value, b: Value): (r: Value)
    ensures IsNullish(a) ==> r == b
    ensures !IsNullish(a) ==> r == a
  {
    if IsNullish(a) then b else a
  }

  /** Number text with an optional leading minus sign, as `Number()` reads it. */
  function DecimalText(s: string): Option<real>
  {
    if |s| >= 1 && AllDigits(s) then Some(DigitsValue(s) as real)
    else if |s| >= 2 && s[0] == '-' && AllDigits(s[1..]) then Some(-(DigitsValue(s[1..]) as real))
    else None
  }

  /** `Number(v)`; None stands for NaN. Strings are read when they are empty
      or plain (optionally negative) digit strings. */
  function JsNumber(v: Value): (r: Option<real>)
    ensures v.Num? ==> r == Some(v.n)
    ensures v.Undefined? || v.Obj? ==> r.None?
    ensures v.Null? || v == Str("") || v == Arr([]) ==> r == Some(0.0)
  {
    match v
    case Undefined => None
    case Null => Some(0.0)
    case Bool(b) => Some(if b then 1.0 else 0.0)
    case Num(n) => Some(n)
    case Str(s) => if s == "" then Some(0.0) else DecimalText(s)
    case Arr(items) => if items == [] then Some(0.0) else None
    case Obj(_) => None
  }

  /** `Number(v) || 0`: NaN and zero both give 0. */
  function NumberOrZero(v: Value): (r: real)
    ensures JsNumber(v).Some? ==> r == JsNumber(v).value
    ensures JsNumber(v).None? ==> r == 0.0
  {
    match JsNumber(v)
    case Some(x) => x
    case None => 0.0
  }

  /** `v || []` followed by an array method: an array, the empty array for a
      falsy value, and None (a TypeError) for any other truthy value. */
  function ListOr(v: Value): (r: Option<seq<Value>>)
    ensures v.Arr? ==> r == Some(v.items)
    ensures !Truthy(v) ==> r == Some([])
    ensures Truthy(v) && !v.Arr? ==> r.None?
  {
    if v.Arr? then Some(v.items) else if !Truthy(v) then Some([]) else None
  }

  /** `Array.isArray(v) ? v : []`. */
  function ArrayOrEmpty(v: Value): (r: seq<Value>)
    ensures v.Arr? ==> r == v.items
    ensures !v.Arr? ==> r == []
  {
    if v.Arr? then v.items else []
  }

  /** The text `String(v)` produces, where the model spells it out. */
  datatype Spelling = Spelled(text: string) | Unspelled(v: Value)

  /** `String(v)`. Integers of up to 21 digits are spelled in decimal;
      other numbers, and arrays holding them, stay symbolic, so two of
      them compare equal exactly when the values are equal. */
  function JsString(v: Value): Spelling
    decreases v, 1
  {
    match v
    case Undefined => Spelled("undefined")
    case Null => Spelled("null")
    case Bool(b) => Spelled(if b then "true" else "false")
    case Num(n) =>
      if n == n.Floor as real && -1000000000000000000000.0 < n < 1000000000000000000000.0
      then Spelled(IntText(n.Floor))
      else Unspelled(v)
    case Str(s) => Spelled(s)
    case Arr(items) =>
      (match JoinedText(items)
       case Some(t) => Spelled(t)
       case None => Unspelled(v))
    case Obj(_) => Spelled("[object Object]")
  }

  /** `items.join(",")`: null and undefined elements contribute nothing. */
  function JoinedText(items: seq<Value>): Option<string>
    decreases items, 0
  {
    if items == [] then Some("")
    else
      var first :=
        if IsNullish(items[0]) then Spelled("")
        else JsString(items[0]);
      match first
      case Unspelled(_) => None
      case Spelled(t) =>
        if |items| == 1 then Some(t)
        else
          match JoinedText(items[1..])
          case Some(rest) => Some(t + "," + rest)
          case None => None
  }

  /** `String(a) === String(b)`. */
  predicate SameText(a: Value, b: Value)
  {
    JsString(a) == JsString(b)
  }

  /** Strings are compared by content, whatever else they are compared with. */
  lemma SameTextStrings(s: string, t: string)
    ensures SameText(Str(s), Str(t)) <==> s == t
  {
  }

  /** Integral numbers compare equal to their decimal text, so a number id
      and its string form select the same points. */
  lemma {:induction false} SameTextNumberString(n: nat)
    requires n < 1000000000000000000000
    ensures SameText(Num(n as real), Str(NatText(n)))
  {
    assert (n as real).Floor == n;
  }

  /** Two different integral numbers never compare equal as text. */
  lemma {:induction false} SameTextNumbers(m: nat, n: nat)
    requires m < 1000000000000000000000 && n < 1000000000000000000000
    requires SameText(Num(m as real), Num(n as real))
    ensures m == n
  {
    assert (m as real).Floor == m && (n as real).Floor == n;
    NatTextInjective(m, n);
  }

  /** Sort key placing index keys first, in ascending order. */
  function IndexRank(m: Member): real
  {
    if IsIndexKey(m.key) then -(IndexValue(m.key) as real) else 0.0
  }

  predicate IsIndexMember(m: Member) { IsIndexKey(m.key) }

  predicate IsNamedMember(m: Member) { !IsIndexKey(m.key) }

  /** The order in which `Object.keys`, `Object.entries` and the spread
      operator list an object's members: index keys in ascending numeric
      order, then the remaining keys in creation order. */
  function OwnKeyOrder(ms: seq<Member>): (r: seq<Member>)
    ensures multiset(r) == multiset(ms)
    ensures |r| == |ms|
  {
    var index := Filter(ms, IsIndexMember);
    var named := Filter(ms, IsNamedMember);
    FilterPartition(ms, IsIndexMember, IsNamedMember);
    SortDesc(index, IndexRank) + named
  }

  /** Index keys come first, ascending; named keys follow in creation order. */
  lemma OwnKeyOrderShape(ms: seq<Member>)
    ensures var r := OwnKeyOrder(ms);
            var n := |Filter(ms, IsIndexMember)|;
            n <= |r|
            && (forall i :: 0 <= i < n ==> IsIndexKey(r[i].key))
            && (forall i, j :: 0 <= i < j < n ==> IndexValue(r[i].key) <= IndexValue(r[j].key))
            && r[n..] == Filter(ms, IsNamedMember)
  {
    var index := Filter(ms, IsIndexMember);
    var sorted := SortDesc(index, IndexRank);
    SortDescSorted(index, IndexRank);
    forall i | 0 <= i < |sorted|
      ensures IsIndexKey(sorted[i].key)
    {
      assert sorted[i] in multiset(index);
      assert sorted[i] in index;
    }
    forall i, j | 0 <= i < j < |sorted|
      ensures IndexValue(sorted[i].key) <= IndexValue(sorted[j].key)
    {
      assert IndexRank(sorted[i]) >= IndexRank(sorted[j]);
    }
  }

  /** The members `{...v}`, `Object.keys(v)` and `Object.entries(v)` see:
      an object's members, an array's or string's index entries, and none
      for other values. */
  function OwnEntries(v: Value): (r: seq<Member>)
    ensures v.Obj? ==> multiset(r) == multiset(v.members)
    ensures v.Arr? ==> |r| == |v.items| && forall i :: 0 <= i < |r| ==> r[i] == Member(NatText(i), v.items[i])
    ensures v.Str? ==> |r| == |v.s| && forall i :: 0 <= i < |r| ==> r[i] == Member(NatText(i), Str([v.s[i]]))
    ensures !v.Obj? && !v.Arr? && !v.Str? ==> r == []
  {
    match v
    case Obj(ms) => OwnKeyOrder(ms)
    case Arr(items) => seq(|items|, i requires 0 <= i < |items| => Member(NatText(i), items[i]))
    case Str(s) => seq(|s|, i requires 0 <= i < |s| => Member(NatText(i), Str([s[i]])))
    case _ => []
  }

  /** An object whose keys are distinct, as every object a program builds is. */
  predicate DistinctKeys(ms: seq<Member>)
  {
    NoDuplicates(Keys(ms))
  }
}
