// The Python runtime values that flow through the agents' message
// contents, state snapshots and serialisation: dicts keep insertion order,
// enum members and dataclass instances are objects with an attribute dict.
module Py {
  import opened Wrappers
  import Strings
  import Clock

  datatype Obj =
    | PNone
    | PBool(b: bool)
    | PInt(i: int)
    | PFloat(r: real)
    | PStr(s: string)
    | PList(items: seq<Obj>)
    | PTuple(items: seq<Obj>)
    | PDict(entries: seq<(Obj, Obj)>)
      /** A `datetime` or `date`, as its clock tick. */
    | PDateTime(tick: nat)
    | PDate(day: nat)
      /** An instance whose attribute dict is `attrs` (a dataclass, an enum member, ...). */
    | PObject(attrs: seq<(string, Obj)>)
      /** Any other value (a set, bytes, a class), carrying what `str()` gives. */
    | POther(text: string)

  type Entries = seq<(Obj, Obj)>

  /** The exceptions the modelled code raises or lets escape. */
  datatype PyError = AttributeError | TypeError | ValueError | KeyError | ZeroDivisionError | FileNotFoundError

  /** `o.lower()`: only strings have it. */
  function LowerOf(o: Obj): (r: Result<string, PyError>)
    ensures r.Ok? <==> o.PStr?
  {
    if o.PStr? then Ok(Strings.Lower(o.s)) else Err(AttributeError)
  }

  /** `o in some_dict` raises TypeError for an unhashable key: a list, a
      dict, or a tuple holding one. */
  predicate Unhashable(o: Obj)
  {
    match o
    case PList(_) => true
    case PDict(_) => true
    case PTuple(items) => exists i :: 0 <= i < |items| && Unhashable(items[i])
    case _ => false
  }

  /** `len(o)`: sized values are text, lists, tuples and dicts. */
  function LenOf(o: Obj): (r: Result<nat, PyError>)
    ensures r.Err? <==> !(o.PStr? || o.PList? || o.PTuple? || o.PDict?)
    ensures r.Err? ==> r.error == TypeError
  {
    match o
    case PStr(s) => Ok(|s|)
    case PList(items) => Ok(|items|)
    case PTuple(items) => Ok(|items|)
    case PDict(entries) => Ok(|entries|)
    case _ => Err(TypeError)
  }

  /** A number as Python compares it (`True` is 1); None for non-numbers. */
  function NumberOf(o: Obj): Option<real>
  {
    match o
    case PInt(i) => Some(i as real)
    case PFloat(r) => Some(r)
    case PBool(b) => Some(if b then 1.0 else 0.0)
    case _ => None
  }

  /** The position of the first character of `s` that is in `cs`, or `|s|` when there is none. */
  function IndexOfAny(s: string, cs: set<char>): (k: nat)
    ensures k <= |s| && (k < |s| ==> s[k] in cs)
    ensures forall i :: 0 <= i < k ==> s[i] !in cs
  {
    if s == [] || s[0] in cs then 0 else 1 + IndexOfAny(s[1..], cs)
  }

  function Pow10(n: nat): (p: nat)
    ensures p >= 1
  {
    if n == 0 then 1 else 10 * Pow10(n - 1)
  }

  /** Decimal digits, where no digits at all read as 0. */
  function DigitsOrEmpty(s: string): Option<nat>
  {
    if s == [] then Some(0) else Clock.Parse(s)
  }

  /** The digits before and after a point, at least one digit in all: "1.5", ".5", "5.". */
  function PointParts(whole: string, frac: string): Option<real>
  {
    if whole == [] && frac == [] then None
    else match (DigitsOrEmpty(whole), DigitsOrEmpty(frac))
      case (Some(w), Some(f)) => Some(w as real + f as real / Pow10(|frac|) as real)
      case _ => None
  }

  /** Digits with at most one point: "12", "1.5", ".5", "5.". */
  function PointText(s: string): Option<real>
  {
    var k := IndexOfAny(s, {'.'});
    if k == |s| then
      match Clock.Parse(s) case None => None case Some(w) => Some(w as real)
    else PointParts(s[..k], s[k + 1..])
  }

  /** An exponent: an optional sign and at least one digit. */
  function ExponentText(s: string): Option<int>
  {
    if s != [] && (s[0] == '+' || s[0] == '-') then
      match Clock.Parse(s[1..])
      case None => None
      case Some(e) => var x: int := if s[0] == '-' then -(e as int) else e; Some(x)
    else match Clock.Parse(s) case None => None case Some(e) => Some(e)
  }

  /** `v` times ten to the power `e`. */
  function Scale(v: real, e: int): real
  {
    if e >= 0 then v * Pow10(e) as real else v / Pow10(-e) as real
  }

  function UnsignedFloatText(s: string): Option<real>
  {
    var k := IndexOfAny(s, {'e', 'E'});
    if k == |s| then PointText(s)
    else match (PointText(s[..k]), ExponentText(s[k + 1..]))
      case (Some(m), Some(e)) => Some(Scale(m, e))
      case _ => None
  }

  /**
   * `float(s)` on text: an optional sign, decimal digits with an optional
   * point, and an optional exponent; any other text is refused.
   */
  function FloatText(s: string): (r: Option<real>)
    ensures r.Some? ==> s != []
  {
    if s != [] && (s[0] == '+' || s[0] == '-') then
      match UnsignedFloatText(s[1..]) case None => None case Some(v) => Some(if s[0] == '-' then -v else v)
    else UnsignedFloatText(s)
  }

  /** Unsigned digits read as their number. */
  lemma UnsignedDigits(s: string, n: nat)
    requires Clock.Parse(s) == Some(n)
    requires forall i :: 0 <= i < |s| ==> '0' <= s[i] <= '9'
    ensures UnsignedFloatText(s) == Some(n as real)
  {
    var k := IndexOfAny(s, {'e', 'E'});
    assert k == |s|;
    var j := IndexOfAny(s, {'.'});
    assert j == |s|;
  }

  /** The decimal text of a whole number reads back as that number, with or without a sign. */
  lemma FloatTextWhole(n: nat)
    ensures FloatText(Clock.Format(n)) == Some(n as real)
    ensures FloatText("-" + Clock.Format(n)) == Some(-(n as real))
    ensures FloatText("+" + Clock.Format(n)) == Some(n as real)
  {
    var s := Clock.Format(n);
    Clock.ParseFormat(n);
    UnsignedDigits(s, n);
    assert ("-" + s)[1..] == s && ("+" + s)[1..] == s;
    assert s[0] != '+' && s[0] != '-';
  }

  /** A point: "0.5" and ".25" are read as a half and a quarter. */
  lemma FloatTextPoint()
    ensures FloatText("0.5") == Some(0.5)
    ensures FloatText("-.25") == Some(-0.25)
  {
    PointHalf();
    PointQuarter();
  }

  lemma PointHalf()
    ensures UnsignedFloatText("0.5") == Some(0.5)
  {
    assert IndexOfAny("0.5", {'e', 'E'}) == 3 && IndexOfAny("0.5", {'.'}) == 1;
    assert "0.5"[..1] == "0" && "0.5"[2..] == "5";
    assert Clock.Parse("0") == Some(0) && Clock.Parse("5") == Some(5);
  }

  lemma PointQuarter()
    ensures UnsignedFloatText(".25") == Some(0.25)
  {
    assert IndexOfAny(".25", {'e', 'E'}) == 3 && IndexOfAny(".25", {'.'}) == 0;
    assert ".25"[1..] == "25";
    assert Clock.Parse("25") == Some(25) by { assert "25"[..1] == "2"; }
    assert Pow10(2) == 100;
  }

  /** An exponent scales the mantissa: "1e3" is a thousand and "5E-1" a half. */
  lemma FloatTextExponent()
    ensures FloatText("1e3") == Some(1000.0)
    ensures FloatText("5E-1") == Some(0.5)
  {
    ExponentThousand();
    ExponentTenth();
  }

  lemma ExponentThousand()
    ensures UnsignedFloatText("1e3") == Some(1000.0)
  {
    assert IndexOfAny("1e3", {'e', 'E'}) == 1;
    assert "1e3"[..1] == "1" && "1e3"[2..] == "3";
    assert PointText("1") == Some(1.0) by { assert IndexOfAny("1", {'.'}) == 1; }
    assert ExponentText("3") == Some(3) by { assert Clock.Parse("3") == Some(3); }
    assert Pow10(3) == 1000;
  }

  lemma ExponentTenth()
    ensures UnsignedFloatText("5E-1") == Some(0.5)
  {
    assert IndexOfAny("5E-1", {'e', 'E'}) == 1;
    assert "5E-1"[..1] == "5" && "5E-1"[2..] == "-1";
    assert PointText("5") == Some(5.0) by { assert IndexOfAny("5", {'.'}) == 1; }
    assert ExponentText("-1") == Some(-1) by { assert "-1"[1..] == "1"; assert Clock.Parse("1") == Some(1); }
  }

  /** Words, a bare point and two points are refused. */
  lemma FloatTextRefused()
    ensures FloatText("high") == None && FloatText(".") == None && FloatText("1.2.3") == None
  {
    RefusedWord();
    RefusedPoint();
    RefusedTwoPoints();
  }

  lemma RefusedWord()
    ensures UnsignedFloatText("high") == None
  {
    assert IndexOfAny("high", {'e', 'E'}) == 4 && IndexOfAny("high", {'.'}) == 4;
    assert Clock.Parse("high") == None;
  }

  lemma RefusedPoint()
    ensures UnsignedFloatText(".") == None
  {
    assert IndexOfAny(".", {'e', 'E'}) == 1 && IndexOfAny(".", {'.'}) == 0;
  }

  lemma RefusedTwoPoints()
    ensures UnsignedFloatText("1.2.3") == None
  {
    assert IndexOfAny("1.2.3", {'e', 'E'}) == 5 && IndexOfAny("1.2.3", {'.'}) == 1;
    assert "1.2.3"[2..] == "2.3" && Clock.Parse("2.3") == None;
  }

  /** The value of the first pair whose key is `key`, in an association list of any key and value types. */
  function AssocGet<K(==), V>(tab: seq<(K, V)>, key: K): (r: Option<V>)
    ensures r.None? <==> forall i :: 0 <= i < |tab| ==> tab[i].0 != key
    ensures r.Some? ==> exists i :: 0 <= i < |tab| && tab[i] == (key, r.value)
  {
    if tab == [] then None
    else if tab[0].0 == key then Some(tab[0].1)
    else AssocGet(tab[1..], key)
  }

  /** The first entry with key `k`; a dict built by `SetItem` has at most one. */
  function Lookup(d: Entries, k: Obj): (r: Option<Obj>)
    ensures r.Some? <==> HasKey(d, k)
  {
    if d == [] then None
    else if d[0].0 == k then Some(d[0].1)
    else Lookup(d[1..], k)
  }

  predicate HasKey(d: Entries, k: Obj)
  {
    exists i :: 0 <= i < |d| && d[i].0 == k
  }

  /** Python `d.get(k, default)`: a stored `None` is returned as it is. */
  function Get(d: Entries, k: Obj, default: Obj): Obj
  {
    match Lookup(d, k)
    case Some(v) => v
    case None => default
  }

  /** `d.get("key", default)` with a string key. */
  function GetS(d: Entries, k: string, default: Obj): Obj
  {
    Get(d, PStr(k), default)
  }

  function Keys(d: Entries): (r: seq<Obj>)
    ensures |r| == |d| && forall i :: 0 <= i < |d| ==> r[i] == d[i].0
  {
    if d == [] then [] else [d[0].0] + Keys(d[1..])
  }

  predicate UniqueKeys(d: Entries)
  {
    forall i, j :: 0 <= i < j < |d| ==> d[i].0 != d[j].0
  }

  /** Python `d[k] = v`: an existing key keeps its position, a new one is appended. */
  function SetItem(d: Entries, k: Obj, v: Obj): (r: Entries)
    ensures Lookup(r, k) == Some(v)
    ensures forall k' :: k' != k ==> Lookup(r, k') == Lookup(d, k')
    ensures HasKey(d, k) ==> |r| == |d|
    ensures !HasKey(d, k) ==> r == d + [(k, v)]
    ensures forall i :: 0 <= i < |d| ==> r[i].0 == d[i].0
  {
    if d == [] then [(k, v)]
    else if d[0].0 == k then [(k, v)] + d[1..]
    else [d[0]] + SetItem(d[1..], k, v)
  }

  /** Setting an item never duplicates a key. */
  lemma SetItemUnique(d: Entries, k: Obj, v: Obj)
    requires UniqueKeys(d)
    ensures UniqueKeys(SetItem(d, k, v))
  {
    var r := SetItem(d, k, v);
    if !HasKey(d, k) {
      assert forall i :: 0 <= i < |d| ==> r[i].0 == d[i].0 != k;
    }
  }

  /** Python `d.update(e)`: the entries of `e` are set one after another. */
  function Update(d: Entries, e: Entries): (r: Entries)
    decreases |e|
  {
    if e == [] then d else Update(SetItem(d, e[0].0, e[0].1), e[1..])
  }

  lemma HasKeyTail(e: Entries, k: Obj)
    requires e != [] && e[0].0 != k
    ensures HasKey(e, k) <==> HasKey(e[1..], k)
  {
    if HasKey(e, k) {
      var i :| 0 <= i < |e| && e[i].0 == k;
      assert e[1..][i - 1].0 == k;
    }
    if HasKey(e[1..], k) {
      var i :| 0 <= i < |e[1..]| && e[1..][i].0 == k;
      assert e[i + 1].0 == k;
    }
  }

  /** After `d.update(e)`, a key of `e` has its value from `e`; any other key keeps its value in `d`. */
  lemma {:induction false} UpdateLookup(d: Entries, e: Entries, k: Obj)
    requires UniqueKeys(e)
    ensures Lookup(Update(d, e), k) == if HasKey(e, k) then Lookup(e, k) else Lookup(d, k)
    decreases |e|
  {
    if e != [] {
      var d' := SetItem(d, e[0].0, e[0].1);
      assert Update(d, e) == Update(d', e[1..]);
      forall i, j | 0 <= i < j < |e[1..]|
        ensures e[1..][i].0 != e[1..][j].0
      {
        assert e[1..][i] == e[i + 1] && e[1..][j] == e[j + 1];
      }
      UpdateLookup(d', e[1..], k);
      if k == e[0].0 {
        assert !HasKey(e[1..], k) by {
          forall i | 0 <= i < |e[1..]|
            ensures e[1..][i].0 != k
          {
            assert e[1..][i] == e[i + 1];
          }
        }
        assert Lookup(e, k) == Some(e[0].1);
        assert HasKey(e, k) by { assert e[0].0 == k; }
      } else {
        HasKeyTail(e, k);
        assert Lookup(e, k) == Lookup(e[1..], k);
        assert Lookup(d', k) == Lookup(d, k);
      }
    }
  }

  /** After `d[k] = v` the keys are those of `d` and `k`. */
  lemma SetItemHasKey(d: Entries, k: Obj, v: Obj, k': Obj)
    ensures HasKey(SetItem(d, k, v), k') <==> k' == k || HasKey(d, k')
  {
    if k' != k {
      assert Lookup(SetItem(d, k, v), k') == Lookup(d, k');
    }
  }

  /** The keys of `d` are those of all but its last entry, and the last one's. */
  lemma HasKeySnoc(d: Entries, k: Obj)
    requires d != []
    ensures HasKey(d, k) <==> HasKey(d[..|d| - 1], k) || d[|d| - 1].0 == k
  {
    var init := d[..|d| - 1];
    if HasKey(d, k) && d[|d| - 1].0 != k {
      var j :| 0 <= j < |d| && d[j].0 == k;
      assert init[j].0 == k;
    }
    if HasKey(init, k) {
      var j :| 0 <= j < |init| && init[j].0 == k;
      assert d[j].0 == k;
    }
  }

  /** A lookup in `a + b` finds `a`'s entry when it has one, `b`'s otherwise. */
  lemma {:induction false} LookupAppend(a: Entries, b: Entries, k: Obj)
    ensures Lookup(a + b, k) == if HasKey(a, k) then Lookup(a, k) else Lookup(b, k)
    decreases |a|
  {
    if a == [] {
      assert a + b == b;
    } else {
      assert (a + b)[0] == a[0];
      assert (a + b)[1..] == a[1..] + b;
      if a[0].0 == k {
        assert HasKey(a, k);
      } else {
        LookupAppend(a[1..], b, k);
        HasKeyTail(a, k);
      }
    }
  }

  /** The first entry with a given key is the one a lookup finds. */
  lemma {:induction false} LookupAt(d: Entries, i: nat)
    requires i < |d|
    requires forall j :: 0 <= j < i ==> d[j].0 != d[i].0
    ensures Lookup(d, d[i].0) == Some(d[i].1)
    decreases i
  {
    if i > 0 {
      LookupAt(d[1..], i - 1);
    }
  }

  /** `d.update(e)` keeps the keys of `d` and gains those of `e`. */
  lemma {:induction false} UpdateHasKey(d: Entries, e: Entries, k: Obj)
    requires HasKey(d, k) || HasKey(e, k)
    ensures HasKey(Update(d, e), k)
    decreases |e|
  {
    if e != [] {
      var d' := SetItem(d, e[0].0, e[0].1);
      if HasKey(e[1..], k) {
        UpdateHasKey(d', e[1..], k);
      } else {
        assert HasKey(d', k) by {
          if k != e[0].0 {
            HasKeyTail(e, k);
          }
        }
        UpdateHasKey(d', e[1..], k);
      }
    }
  }

  /** Updating with keys that are new and distinct appends the entries in order. */
  lemma {:induction false} UpdateFresh(d: Entries, e: Entries)
    requires UniqueKeys(d + e)
    ensures Update(d, e) == d + e
    decreases |e|
  {
    if e != [] {
      var de := d + e;
      assert forall j :: 0 <= j < |d| ==> d[j].0 == de[j].0 != de[|d|].0 == e[0].0;
      var d' := SetItem(d, e[0].0, e[0].1);
      assert d' + e[1..] == de;
      UpdateFresh(d', e[1..]);
    }
  }

  /** Python truthiness. */
  predicate Truthy(o: Obj)
  {
    match o
    case PNone => false
    case PBool(b) => b
    case PInt(i) => i != 0
    case PFloat(r) => r != 0.0
    case PStr(s) => s != []
    case PList(items) => items != []
    case PTuple(items) => items != []
    case PDict(entries) => entries != []
    case _ => true
  }

  /** `for x in o`: lists and tuples give their items, dicts their keys, strings their characters; other values are not iterable. */
  function Iterate(o: Obj): (r: Result<seq<Obj>, PyError>)
    ensures o.PList? || o.PTuple? ==> r == Ok(o.items)
    ensures o.PDict? ==> r == Ok(Keys(o.entries))
    ensures o.PStr? ==> r.Ok? && |r.value| == |o.s| && forall i :: 0 <= i < |o.s| ==> r.value[i] == PStr([o.s[i]])
    ensures r.Err? <==> !(o.PList? || o.PTuple? || o.PDict? || o.PStr?)
  {
    match o
    case PList(items) => Ok(items)
    case PTuple(items) => Ok(items)
    case PDict(entries) => Ok(Keys(entries))
    case PStr(s) => Ok(seq(|s|, i requires 0 <= i < |s| => PStr([s[i]])))
    case _ => Err(TypeError)
  }

  /** A dict literal with string keys. */
  function StrDict(kvs: seq<(string, Obj)>): (r: Entries)
    ensures |r| == |kvs| && forall i :: 0 <= i < |kvs| ==> r[i] == (PStr(kvs[i].0), kvs[i].1)
  {
    if kvs == [] then [] else [(PStr(kvs[0].0), kvs[0].1)] + StrDict(kvs[1..])
  }

  /** The first pair named `key` is the one a lookup finds. */
  lemma {:induction false} LookupStrDict(kvs: seq<(string, Obj)>, key: string, i: nat)
    requires i < |kvs| && kvs[i].0 == key
    requires forall j :: 0 <= j < i ==> kvs[j].0 != key
    ensures Lookup(StrDict(kvs), PStr(key)) == Some(kvs[i].1)
    decreases i
  {
    if i > 0 {
      LookupStrDict(kvs[1..], key, i - 1);
      assert StrDict(kvs)[1..] == StrDict(kvs[1..]);
    }
  }

  function StrList(ss: seq<string>): (r: seq<Obj>)
    ensures |r| == |ss| && forall i :: 0 <= i < |ss| ==> r[i] == PStr(ss[i])
  {
    if ss == [] then [] else [PStr(ss[0])] + StrList(ss[1..])
  }

  /** A list comprehension whose element expression may raise: the first exception, or every value. */
  function Collect<T>(rs: seq<Result<T, PyError>>): Result<seq<T>, PyError>
    decreases |rs|
  {
    if rs == [] then Ok([])
    else match rs[0]
      case Err(e) => Err(e)
      case Ok(v) => match Collect(rs[1..]) case Err(e) => Err(e) case Ok(vs) => Ok([v] + vs)
  }

  /** The comprehension succeeds exactly when every element does, and then holds their values in order. */
  lemma {:induction false} CollectSpec<T>(rs: seq<Result<T, PyError>>)
    ensures Collect(rs).Ok? <==> forall i :: 0 <= i < |rs| ==> rs[i].Ok?
    ensures Collect(rs).Ok? ==> |Collect(rs).value| == |rs| && forall i :: 0 <= i < |rs| ==> Ok(Collect(rs).value[i]) == rs[i]
    decreases |rs|
  {
    if rs != [] {
      CollectSpec(rs[1..]);
      assert forall i :: 1 <= i < |rs| ==> rs[i] == rs[1..][i - 1];
    }
  }

  /** `round(x * 100)` with ties to the even neighbour. */
  function Cents(x: real): (m: int)
    ensures (m as real - x * 100.0) <= 0.5 && (x * 100.0 - m as real) <= 0.5
  {
    var k := (x * 100.0).Floor;
    var frac := x * 100.0 - k as real;
    if frac > 0.5 then k + 1 else if frac < 0.5 then k else if k % 2 == 0 then k else k + 1
  }

  /** `round(x, 2)`. */
  function Round2(x: real): (r: real)
    ensures -0.005 <= r - x <= 0.005
    ensures r == Cents(x) as real / 100.0
  {
    Cents(x) as real / 100.0
  }

  lemma Round2NonNegative(x: real)
    requires x >= 0.0
    ensures Round2(x) >= 0.0
  {
    assert Cents(x) >= 0;
  }

  /**
   * `str(o)` inside an f-string: text as it is, None and booleans by name,
   * integers in decimal; other values are shown by a placeholder.
   */
  function Show(o: Obj): (r: string)
    ensures o.PStr? ==> r == o.s
  {
    match o
    case PStr(s) => s
    case PNone => "None"
    case PBool(b) => if b then "True" else "False"
    case PInt(i) => if i < 0 then "-" + Clock.Format(-i) else Clock.Format(i)
    case POther(t) => t
    case _ => "<value>"
  }
}
