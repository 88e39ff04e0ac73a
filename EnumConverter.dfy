/**
 * Lookup of an enum constant by its name or by the value one of its getters
 * returns. The constants of an enum class are scanned in declaration order and
 * the first one that matches is returned; when none matches the result is empty.
 */
module Converter {
  import opened Wrappers

  /**
   * What a lookup needs of an enum class: its constants in declaration order and
   * the intrinsic name of each constant.
   */
  datatype EnumClass<!T> = EnumClass(constants: seq<T>, name: T -> string) {

    /** The constants of an enum class have pairwise distinct names. */
    ghost predicate Valid() {
      forall i, j :: 0 <= i < j < |constants| ==> name(constants[i]) != name(constants[j])
    }
  }

  /** `getter` gives different values to different positions of `cs`. */
  ghost predicate InjectiveOn<T, E>(cs: seq<T>, getter: T -> E) {
    forall i, j :: 0 <= i < j < |cs| ==> getter(cs[i]) != getter(cs[j])
  }

  /**
   * Index of the first constant of `cs` whose getter value equals `value`: the
   * find-first scan that stops at the first match.
   */
  function FirstMatch<T, E(==)>(cs: seq<T>, getter: T -> E, value: E): (r: Option<nat>)
    ensures r.Some? ==> r.value < |cs| && getter(cs[r.value]) == value
    ensures r.Some? ==> forall j :: 0 <= j < r.value ==> getter(cs[j]) != value
    ensures r.None? ==> forall j :: 0 <= j < |cs| ==> getter(cs[j]) != value
  {
    if |cs| == 0 then None
    else if getter(cs[0]) == value then Some(0)
    else
      match FirstMatch(cs[1..], getter, value)
      case None => None
      case Some(k) => Some(k + 1)
  }

  /**
   * The first constant of `clazz`, in declaration order, whose getter value
   * equals `value`; empty when no constant has that value.
   */
  function GetByGetter<T, E(==)>(clazz: EnumClass<T>, getter: T -> E, value: E): (r: Option<T>)
    ensures r.Some? ==> r.value in clazz.constants && getter(r.value) == value
    ensures r.Some? ==>
      exists i :: 0 <= i < |clazz.constants| && clazz.constants[i] == r.value &&
        forall j :: 0 <= j < i ==> getter(clazz.constants[j]) != value
    ensures r.None? <==> forall c :: c in clazz.constants ==> getter(c) != value
  {
    match FirstMatch(clazz.constants, getter, value)
    case None => None
    case Some(i) => Some(clazz.constants[i])
  }

  /**
   * The constant of `clazz` whose name is exactly `name` (case-sensitive string
   * equality); the same scan as GetByGetter with the name as getter.
   */
  function GetByName<T>(clazz: EnumClass<T>, name: string): (r: Option<T>)
    ensures r.Some? ==> r.value in clazz.constants && clazz.name(r.value) == name
    ensures r.None? <==> forall c :: c in clazz.constants ==> clazz.name(c) != name
  {
    GetByGetter(clazz, clazz.name, name)
  }

  /** A converter bound to one enum class, fixed at construction. */
  class EnumConverter<T> {
    const clazz: EnumClass<T>

    constructor (clazz: EnumClass<T>)
      ensures this.clazz == clazz
    {
      this.clazz := clazz;
    }

    /** The constant of the bound class whose name is exactly `name`. */
    function GetByName(name: string): (r: Option<T>)
      ensures r.Some? ==> r.value in clazz.constants && clazz.name(r.value) == name
      ensures r.None? <==> forall c :: c in clazz.constants ==> clazz.name(c) != name
    {
      _default.GetByName(clazz, name)
    }

    /** The first constant of the bound class whose getter value equals `value`. */
    function GetByGetter<E(==)>(getter: T -> E, value: E): (r: Option<T>)
      ensures r.Some? ==> r.value in clazz.constants && getter(r.value) == value
      ensures r.Some? ==>
        exists i :: 0 <= i < |clazz.constants| && clazz.constants[i] == r.value &&
          forall j :: 0 <= j < i ==> getter(clazz.constants[j]) != value
      ensures r.None? <==> forall c :: c in clazz.constants ==> getter(c) != value
    {
      _default.GetByGetter(clazz, getter, value)
    }
  }

  /** A converter built for `clazz` answers a name lookup as the static form does. */
  method BoundGetByName<T>(clazz: EnumClass<T>, name: string) returns (r: Option<T>)
    ensures r == GetByName(clazz, name)
  {
    var converter := new EnumConverter(clazz);
    r := converter.GetByName(name);
  }

  /** A converter built for `clazz` answers a getter lookup as the static form does. */
  method BoundGetByGetter<T, E(==)>(clazz: EnumClass<T>, getter: T -> E, value: E) returns (r: Option<T>)
    ensures r == GetByGetter(clazz, getter, value)
  {
    var converter := new EnumConverter(clazz);
    r := converter.GetByGetter(getter, value);
  }

  /**
   * Reference definition of the lookup: the constants kept by the filter
   * "getter value equals `value`", in declaration order.
   */
  ghost function Matches<T, E>(cs: seq<T>, getter: T -> E, value: E): seq<T> {
    if |cs| == 0 then []
    else if getter(cs[0]) == value then [cs[0]] + Matches(cs[1..], getter, value)
    else Matches(cs[1..], getter, value)
  }

  /** The lookup is the first element of the filtered constants, or empty if none is kept. */
  lemma GetByGetterIsFindFirst<T, E>(clazz: EnumClass<T>, getter: T -> E, value: E)
    ensures GetByGetter(clazz, getter, value) ==
      var m := Matches(clazz.constants, getter, value);
      if |m| == 0 then None else Some(m[0])
  {
    FirstMatchIsHeadOfMatches(clazz.constants, getter, value);
  }

  lemma {:induction false} FirstMatchIsHeadOfMatches<T, E>(cs: seq<T>, getter: T -> E, value: E)
    ensures FirstMatch(cs, getter, value).None? <==> |Matches(cs, getter, value)| == 0
    ensures FirstMatch(cs, getter, value).Some? ==>
      Matches(cs, getter, value)[0] == cs[FirstMatch(cs, getter, value).value]
  {
    if |cs| > 0 && getter(cs[0]) != value {
      FirstMatchIsHeadOfMatches(cs[1..], getter, value);
    }
  }

  /**
   * Every constant is found back from its own getter value when the getter
   * distinguishes the constants.
   */
  lemma GetByGetterRoundTrip<T, E>(clazz: EnumClass<T>, getter: T -> E, i: nat)
    requires i < |clazz.constants|
    requires InjectiveOn(clazz.constants, getter)
    ensures GetByGetter(clazz, getter, getter(clazz.constants[i])) == Some(clazz.constants[i])
  {
  }

  /** Every constant of an enum class is found back from its name. */
  lemma GetByNameRoundTrip<T>(clazz: EnumClass<T>, i: nat)
    requires clazz.Valid()
    requires i < |clazz.constants|
    ensures GetByName(clazz, clazz.name(clazz.constants[i])) == Some(clazz.constants[i])
  {
  }

  /**
   * The scan stops at the first match: constants after a found one never change
   * the result, and constants before every match are simply passed over.
   */
  lemma {:induction false} ScanStopsAtFirstMatch<T, E>(pre: seq<T>, post: seq<T>, getter: T -> E, value: E)
    ensures FirstMatch(pre + post, getter, value) ==
      match FirstMatch(pre, getter, value)
      case Some(i) => Some(i)
      case None =>
        match FirstMatch(post, getter, value)
        case Some(k) => Some(|pre| + k)
        case None => None
  {
    if |pre| > 0 {
      assert (pre + post)[1..] == pre[1..] + post;
      ScanStopsAtFirstMatch(pre[1..], post, getter, value);
    } else {
      assert pre + post == post;
    }
  }
}
