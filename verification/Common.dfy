/** Vocabulary shared by every module: optional values, results that may be an exception,
    durable identities, and the few real-number helpers the source uses. */
module Common {

  datatype Option<+T> = None | Some(value: T)

  /** The exception classes the modelled code raises. Messages are not modelled. */
  datatype Error = ValueError | KeyError | RuntimeError | PermissionError | BrokerError | ZeroDivisionError

  datatype Outcome<+T> = Ok(value: T) | Raised(error: Error)

  /** The identities the source builds with f-strings. One constructor per format, so that
      identities built in different ways, or from different parts, differ. */
  datatype Id =
    | Name(text: string)
    | ChildOf(parent: Id, index: nat)       // "{parent}:child:{index}"
    | VenueRef(venue: string, order: Id)    // "{venue}:{order_id}"
    | FillOf(order: Id)                     // "{venue_order_id}:fill"
    | Scoped(child: Id, fill: Id)           // "{child_id}:{fill_id}"

  /** `not s.strip()` */
  predicate BlankText(s: string) {
    forall i | 0 <= i < |s| :: s[i] in " \t\n\r"
  }

  predicate Blank(id: Id) {
    id.Name? && BlankText(id.text)
  }

  /** Text with a character that is not white space; identities built from others have some. */
  predicate VisibleText(s: string) {
    exists k | 0 <= k < |s| :: s[k] !in {' ', '\t', '\n', '\r'}
  }

  predicate Visible(id: Id) { id.Name? ==> VisibleText(id.text) }

  lemma VisibleTextIff(s: string)
    ensures VisibleText(s) <==> !BlankText(s)
  {
    if BlankText(s) {
      forall k | 0 <= k < |s| ensures s[k] in {' ', '\t', '\n', '\r'} {
        assert s[k] in " \t\n\r";
      }
    }
  }

  lemma VisibleIff(id: Id)
    ensures Visible(id) <==> !Blank(id)
  {
    if id.Name? { VisibleTextIff(id.text); }
  }

  /** `not s` */
  predicate Empty(id: Id) {
    id == Name("")
  }

  /** SQL's COALESCE(a, b) */
  function Coalesce<T>(a: Option<T>, b: Option<T>): Option<T> {
    if a.Some? then a else b
  }

  function Abs(x: real): real { if x < 0.0 then -x else x }

  function Max(x: real, y: real): real { if x < y then y else x }

  function Min(x: real, y: real): real { if y < x then y else x }

  const TOL_12: real := 0.000000000001
  const TOL_10: real := 0.0000000001
  const TOL_9: real := 0.000000001
  const TOL_7: real := 0.0000001

  predicate Distinct<T(==)>(s: seq<T>) {
    forall i, j | 0 <= i < j < |s| :: s[i] != s[j]
  }

  lemma InsertedMembers<T>(s: seq<T>, i: nat, x: T)
    requires i <= |s|
    ensures forall y :: y in s[..i] + [x] + s[i..] <==> y in s || y == x
  {
    assert s == s[..i] + s[i..];
  }

  lemma {:induction false} SubsetCount<T>(a: set<T>, b: set<T>)
    requires a <= b
    ensures |a| <= |b|
  {
    if a != {} {
      var x :| x in a;
      SubsetCount(a - {x}, b - {x});
    }
  }
}
