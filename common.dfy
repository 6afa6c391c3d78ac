/** Values shared by the server controllers and the client pages: optional
    values, HTTP replies, stored documents, MongoDB object ids and the
    JavaScript truthiness rules the handlers rely on. */
module Common {

  datatype Option<+T> = None | Some(value: T)

  /** What a controller sends back: a success code with a JSON body, or an
      error code with the message the handler writes. */
  datatype Response<+T> = Success(code: int, value: T) | Failure(code: int, message: string)

  /** A stored document together with its `_id`. */
  datatype Doc<+T> = Doc(id: ObjectId, fields: T)

  /** The outcome of a client-side `axios` request: the response data, or a
      rejected promise. */
  datatype Fetch<+T> = Fetched(data: T) | FetchFailed

  /** Ids travel as text: in route parameters, request bodies and tokens. */
  type ObjectId = string

  predicate IsHexDigit(c: char) {
    '0' <= c <= '9' || 'a' <= c <= 'f' || 'A' <= c <= 'F'
  }

  predicate IsLowerHexDigit(c: char) {
    '0' <= c <= '9' || 'a' <= c <= 'f'
  }

  /** The texts Mongoose can cast to an ObjectId: exactly 24 hex digits of
      either case. Any other text makes the cast throw a CastError. */
  predicate IsObjectId(s: string) {
    |s| == 24 && forall i :: 0 <= i < |s| ==> IsHexDigit(s[i])
  }

  /** The form `ObjectId.toString()` prints: 24 lower-case hex digits. */
  predicate IsCanonicalId(s: string) {
    |s| == 24 && forall i :: 0 <= i < |s| ==> IsLowerHexDigit(s[i])
  }

  function LowerHex(c: char): char {
    if 'A' <= c <= 'F' then (c as int + 32) as char else c
  }

  /** The id a cast text denotes, written as `toString()` prints it. */
  function Canonical(s: string): (r: string)
    ensures |r| == |s|
    ensures forall i :: 0 <= i < |s| ==> r[i] == LowerHex(s[i])
    ensures IsObjectId(s) ==> IsCanonicalId(r)
  {
    if s == [] then [] else [LowerHex(s[0])] + Canonical(s[1..])
  }

  /** Casting a canonical id changes nothing, so stored ids are found again
      under their own text. */
  lemma {:induction false} CanonicalOfCanonical(s: string)
    requires IsCanonicalId(s)
    ensures IsObjectId(s) && Canonical(s) == s
  {
    assert |Canonical(s)| == |s|;
    forall i | 0 <= i < |s| ensures Canonical(s)[i] == s[i] {
      assert IsLowerHexDigit(s[i]);
    }
  }

  /** JavaScript truthiness of an optional string field: `undefined` and
      the empty string are falsy. */
  predicate TruthyString(v: Option<string>) {
    v.Some? && v.value != ""
  }

  /** JavaScript truthiness of an optional numeric field: `undefined` and
      zero are falsy. */
  predicate TruthyNumber(v: Option<real>) {
    v.Some? && v.value != 0.0
  }
}
