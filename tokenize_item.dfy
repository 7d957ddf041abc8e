/** `TokenizeItem`: the token value the binder consumes, with its three
  * constructors, its status tests, field-wise equality and hash code. */
module Tokens {
  import W = Wrappers
  import Comparer

  datatype ResultStatus = Success | Failure

  datatype TokenizeErrorType =
    | None
    | InvalidCharacterInName
    | InvalidCharacterInValue
    | IncompleteQuotation
    | Unknown

  datatype TokenizeItem = TokenizeItem(
    name: string,
    value: W.Option<string>,
    resultStatus: ResultStatus,
    errorType: TokenizeErrorType,
    errorMessage: string)

  /** The parameterless constructor. */
  function NewEmptyItem(): (t: TokenizeItem)
    ensures t.name == "" && t.value.None? && t.resultStatus == Success
    ensures t.errorType == None && t.errorMessage == ""
  {
    TokenizeItem("", W.None, Success, None, "")
  }

  /** The `(name, value)` constructor: a successfully tokenized item. */
  function NewItem(name: string, value: W.Option<string>): (t: TokenizeItem)
    ensures t.name == name && t.value == value && Succeeded(t)
    ensures t.errorType == None && t.errorMessage == ""
  {
    TokenizeItem(name, value, Success, None, "")
  }

  /** The failure constructor: no value, a null message becomes empty. */
  function NewFailedItem(name: string, errorType: TokenizeErrorType, errorMessage: W.Option<string>): (t: TokenizeItem)
    ensures t.name == name && t.value.None? && Failed(t) && t.errorType == errorType
    ensures errorMessage.None? ==> t.errorMessage == ""
    ensures errorMessage.Some? ==> t.errorMessage == errorMessage.value
  {
    TokenizeItem(name, W.None, Failure, errorType, errorMessage.OrElse(""))
  }

  predicate Succeeded(t: TokenizeItem)
  {
    t.resultStatus == Success
  }

  predicate Failed(t: TokenizeItem)
  {
    t.resultStatus == Failure
  }

  lemma SucceededIsNotFailed(t: TokenizeItem)
    ensures Succeeded(t) == !Failed(t)
  {
  }

  /** `Equals(TokenizeItem?)`: false for null, otherwise all five fields
    * compared, the strings ordinally. */
  function Equals(t: TokenizeItem, other: W.Option<TokenizeItem>): (r: bool)
    ensures other.None? ==> !r
    ensures other.Some? ==> (r <==> t == other.value)
  {
    match other
    case None => false
    case Some(o) =>
      Comparer.IsEqual(W.Some(t.name), W.Some(o.name)) &&
      Comparer.IsEqual(t.value, o.value) &&
      t.resultStatus == o.resultStatus &&
      t.errorType == o.errorType &&
      Comparer.IsEqual(W.Some(t.errorMessage), W.Some(o.errorMessage))
  }

  lemma EqualsReflexive(t: TokenizeItem)
    ensures Equals(t, W.Some(t))
  {
  }

  lemma EqualsSymmetric(a: TokenizeItem, b: TokenizeItem)
    ensures Equals(a, W.Some(b)) == Equals(b, W.Some(a))
  {
  }

  // ---------------------------------------------------------------------
  // Hash code, computed with 32-bit wrap-around as C# `int` arithmetic does

  const TwoTo31: int := 0x8000_0000
  const TwoTo32: int := 0x1_0000_0000

  predicate IsInt32(x: int)
  {
    -TwoTo31 <= x < TwoTo31
  }

  /** The `int` that C# arithmetic produces for the mathematical value `x`. */
  function Wrap32(x: int): (r: int)
    ensures IsInt32(r)
    ensures (x - r) % TwoTo32 == 0
    ensures IsInt32(x) ==> r == x
  {
    (x + TwoTo31) % TwoTo32 - TwoTo31
  }

  function StatusOrdinal(s: ResultStatus): int
  {
    match s
    case Success => 0
    case Failure => 1
  }

  function ErrorTypeOrdinal(e: TokenizeErrorType): int
  {
    match e
    case None => 0
    case InvalidCharacterInName => 1
    case InvalidCharacterInValue => 2
    case IncompleteQuotation => 3
    case Unknown => 4
  }

  /** `EqualityComparer<string?>.Default.GetHashCode`: 0 for null, otherwise
    * the runtime's string hash, which is a parameter here. */
  function NullableHash(s: W.Option<string>, stringHash: string -> int): int
  {
    match s
    case None => 0
    case Some(v) => Wrap32(stringHash(v))
  }

  function Combine(h: int, fieldHash: int): int
  {
    Wrap32(h * -1521134295 + fieldHash)
  }

  /** `GetHashCode`: the five field hashes folded into 966633335. */
  function GetHashCode(t: TokenizeItem, stringHash: string -> int): (h: int)
    ensures IsInt32(h)
  {
    var h0 := 966633335;
    var h1 := Combine(h0, NullableHash(W.Some(t.name), stringHash));
    var h2 := Combine(h1, NullableHash(t.value, stringHash));
    var h3 := Combine(h2, StatusOrdinal(t.resultStatus));
    var h4 := Combine(h3, ErrorTypeOrdinal(t.errorType));
    Combine(h4, NullableHash(W.Some(t.errorMessage), stringHash))
  }

  /** Items that `Equals` relates have the same hash code. */
  lemma EqualItemsHashAlike(a: TokenizeItem, b: TokenizeItem, stringHash: string -> int)
    requires Equals(a, W.Some(b))
    ensures GetHashCode(a, stringHash) == GetHashCode(b, stringHash)
  {
  }
}
