/**
 * Values shared by every component of the payment service: optional values,
 * the error taxonomy the services throw, identifiers, instants, Java `long`
 * arithmetic, and the single-result semantics of the derived repository finders.
 */
module Common {

  datatype Option<+T> = None | Some(value: T)

  /** The exceptions the core throws, one constructor per distinct failure. */
  datatype Error =
    | PaymentNotFound            // PaymentNotFoundException
    | PaymentRecordMissing       // RuntimeException "Paiement non trouvé ..."
    | ShopAccountMissing         // RuntimeException "Shop n'a pas de compte Stripe configuré"
    | ShopCannotReceivePayments  // RuntimeException "Onboarding Stripe incomplet"
    | ConnectAccountMissing      // RuntimeException "Compte Stripe non trouvé" / "Aucun compte Stripe trouvé"
    | StripeFailure              // a StripeException propagated as it is
    | StripePaymentFailure       // StripePaymentException wrapping a StripeException
    | DataIntegrityViolation     // the database refused the row (NOT NULL, length, UNIQUE)
    | IncorrectResultSize        // a single-result finder matched more than one row
    | SecretKeyMismatch          // IllegalArgumentException: the secret key does not belong to the mode
    | NullSecretKey              // NullPointerException: no secret key configured for a checked mode
    | MessageBuildFailure        // NullPointerException: `Map.of` was given a null value for a broker message

  datatype Result<+T> = Ok(value: T) | Err(error: Error)

  /** A UUID is only ever used through its canonical 36-character text. */
  type Uuid = s: string | |s| == 36 witness "00000000-0000-0000-0000-000000000000"

  /** A `LocalDateTime`, as a point on a totally ordered time line. */
  type Instant = int

  const LONG_MIN: int := -0x8000_0000_0000_0000
  const LONG_MAX: int := 0x7FFF_FFFF_FFFF_FFFF
  const TWO_64: int := 0x1_0000_0000_0000_0000

  /** Java `long`. */
  type Long = x: int | LONG_MIN <= x <= LONG_MAX

  /** The low-order 64 bits of `x`, read as a two's-complement `long`. */
  function WrapLong(x: int): (r: Long)
    ensures (x - r) % TWO_64 == 0
    ensures LONG_MIN <= x <= LONG_MAX ==> r == x
  {
    (x - LONG_MIN) % TWO_64 + LONG_MIN
  }

  /** Multiplying both sides of `a <= b` by a non-negative factor keeps the order. */
  lemma MulLeq(a: int, b: int, d: int)
    requires a <= b && d >= 0
    ensures a * d <= b * d
  {
    assert (b - a) * d >= 0;
  }

  /** `String.startsWith`. */
  predicate StartsWith(s: string, prefix: string) {
    |prefix| <= |s| && s[..|prefix|] == prefix
  }

  /**
   * What a Spring Data finder declared to return `Optional<T>` yields: empty
   * when no row matches, the row when exactly one does, and an
   * `IncorrectResultSizeDataAccessException` when several do.
   */
  datatype Lookup<+T> = Absent | Found(value: T) | NonUnique {
    function ToResult(): Result<Option<T>> {
      match this
      case Absent => Ok(None)
      case Found(v) => Ok(Some(v))
      case NonUnique => Err(IncorrectResultSize)
    }
  }

  /** Cardinality facts linking `|s|` to how many distinct elements `s` holds. */
  lemma Cardinality<K>(s: set<K>)
    ensures |s| == 0 <==> s == {}
    ensures |s| == 1 ==> forall a, b :: a in s && b in s ==> a == b
    ensures |s| >= 2 <==> exists a, b :: a in s && b in s && a != b
  {
    if |s| >= 1 {
      var x :| x in s;
      assert |s - {x}| == |s| - 1;
      if |s| == 1 {
        assert s - {x} == {};
        forall a, b | a in s && b in s ensures a == b {
          assert a !in s - {x} && b !in s - {x};
        }
      } else {
        var y :| y in s - {x};
        assert x in s && y in s && x != y;
      }
    }
    if exists a, b :: a in s && b in s && a != b {
      var a, b :| a in s && b in s && a != b;
      assert b in s - {a};
      assert |s - {a}| == |s| - 1;
    }
  }

  /** The single-result query over a table keyed by `K`. */
  function FindOne<K, V>(rows: map<K, V>, matches: V -> bool): (r: Lookup<V>)
    ensures r.Absent? <==> (forall k :: k in rows ==> !matches(rows[k]))
    ensures r.Found? ==>
      exists k :: k in rows && rows[k] == r.value && matches(r.value) &&
        forall j :: j in rows && matches(rows[j]) ==> j == k
    ensures r.NonUnique? <==>
      exists j, k :: j in rows && k in rows && j != k && matches(rows[j]) && matches(rows[k])
  {
    var ks := set k | k in rows && matches(rows[k]);
    Cardinality(ks);
    if |ks| == 0 then
      assert forall k :: k in rows ==> (k in ks <==> matches(rows[k]));
      Absent
    else if |ks| == 1 then
      var k :| k in ks;
      assert forall j :: j in rows && matches(rows[j]) ==> j in ks;
      Found(rows[k])
    else
      NonUnique
  }

  /** A FindOne that found something returned a row of the table that matches. */
  lemma FoundIsStored<K, V>(rows: map<K, V>, matches: V -> bool)
    requires FindOne(rows, matches).Found?
    ensures FindOne(rows, matches).value in rows.Values
    ensures matches(FindOne(rows, matches).value)
  {
    var k :| k in rows && rows[k] == FindOne(rows, matches).value;
  }

  /** A message broker, seen only as the ordered log of what was published to it. */
  class Outbox<T> {
    var messages: seq<T>

    constructor ()
      ensures messages == []
    {
      messages := [];
    }

    method Publish(m: T)
      modifies this
      ensures messages == old(messages) + [m]
    {
      messages := messages + [m];
    }
  }
}
