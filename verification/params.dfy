/**
 * Paging parameters of the direct-message listing requests: their rendering as
 * query parameters, and their construction from functional options.
 */
module Params {
  import opened Wrappers
  import opened Types
  import opened Decimal

  /** Optional paging bounds; a field that is not strictly positive means "no bound". */
  datatype DmParams = DmParams(sinceId: Int64, maxId: Int64, count: Int64)

  /** Go's zero value of DmParams: no bounds at all. */
  const ZeroParams: DmParams := DmParams(0, 0, 0)

  const SinceIdKey: string := "since_id"
  const MaxIdKey: string := "max_id"
  const CountKey: string := "count"

  /**
   * DmParams.ToValues: each bound that is strictly positive becomes one key
   * bound to its decimal rendering; no other key is ever emitted.
   */
  function ToValues(p: DmParams): (v: Values)
    ensures v.Keys <= {SinceIdKey, MaxIdKey, CountKey}
    ensures SinceIdKey in v <==> p.sinceId > 0
    ensures MaxIdKey in v <==> p.maxId > 0
    ensures CountKey in v <==> p.count > 0
    ensures SinceIdKey in v ==> v[SinceIdKey] == [FormatInt(p.sinceId)]
    ensures MaxIdKey in v ==> v[MaxIdKey] == [FormatInt(p.maxId)]
    ensures CountKey in v ==> v[CountKey] == [FormatInt(p.count)]
  {
    var v0: Values := map[];
    var v1 := if p.sinceId > 0 then SetValue(v0, SinceIdKey, FormatInt(p.sinceId)) else v0;
    var v2 := if p.maxId > 0 then SetValue(v1, MaxIdKey, FormatInt(p.maxId)) else v1;
    if p.count > 0 then SetValue(v2, CountKey, FormatInt(p.count)) else v2
  }

  /** The bound a request carries for a key: its parsed value, or 0 when absent. */
  function Bound(v: Values, key: string): int {
    if key in v && |v[key]| == 1 then ParseInt(v[key][0]) else 0
  }

  /**
   * Reading the rendered parameters back gives every strictly positive bound
   * exactly and 0 for every other, so no bound is lost or altered.
   */
  lemma {:induction false} ToValuesRoundTrip(p: DmParams)
    ensures Bound(ToValues(p), SinceIdKey) == if p.sinceId > 0 then p.sinceId else 0
    ensures Bound(ToValues(p), MaxIdKey) == if p.maxId > 0 then p.maxId else 0
    ensures Bound(ToValues(p), CountKey) == if p.count > 0 then p.count else 0
  {
    ParseFormatInt(p.sinceId);
    ParseFormatInt(p.maxId);
    ParseFormatInt(p.count);
  }

  /** Zero-value parameters constrain nothing: the request carries no key. */
  lemma ZeroParamsNoValues()
    ensures ToValues(ZeroParams) == map[]
  {
  }

  /** A count of 50 and nothing else is sent as the single pair count=50. */
  lemma CountOnlyValues()
    ensures ToValues(DmParams(0, 0, 50)) == map[CountKey := ["50"]]
  {
    assert FormatNat(5) == "5";
    assert FormatNat(50) == "50";
  }

  /**
   * A functional option: it adjusts the parameters or fails. When an option
   * fails, NewDmParams discards the parameters, so an adjustment made before
   * the failure is never observable.
   */
  type DmOption = DmParams -> Result<DmParams, Error>

  /** The options applied left to right to p, stopping at the first failure. */
  function ApplyOptions(p: DmParams, options: seq<DmOption>): Result<DmParams, Error>
    decreases |options|
  {
    if options == [] then Success(p)
    else match options[0](p)
      case Failure(e) => Failure(e)
      case Success(q) => ApplyOptions(q, options[1..])
  }

  /** NewDmParams: start from the zero parameters and apply the options in order. */
  method NewDmParams(options: seq<DmOption>) returns (r: Result<DmParams, Error>)
    ensures r == ApplyOptions(ZeroParams, options)
    ensures options == [] ==> r == Success(ZeroParams)
  {
    var p := ZeroParams;
    for i := 0 to |options|
      invariant ApplyOptions(p, options[i..]) == ApplyOptions(ZeroParams, options)
    {
      assert options[i..][1..] == options[i + 1..];
      var res := options[i](p);
      match res {
        case Failure(e) =>
          return Failure(e);
        case Success(q) =>
          p := q;
      }
    }
    return Success(p);
  }

  /** Applying a + b is applying a, then, if that succeeded, applying b. */
  lemma {:induction false} ApplyOptionsConcat(p: DmParams, a: seq<DmOption>, b: seq<DmOption>)
    ensures ApplyOptions(p, a + b) ==
      match ApplyOptions(p, a)
        case Failure(e) => Failure(e)
        case Success(q) => ApplyOptions(q, b)
    decreases |a|
  {
    if a == [] {
      assert a + b == b;
    } else {
      assert (a + b)[1..] == a[1..] + b;
      match a[0](p)
        case Failure(e) =>
        case Success(q) => ApplyOptionsConcat(q, a[1..], b);
    }
  }

  /**
   * The first failing option decides the outcome: once the options before
   * index i have succeeded and option i fails, the result is that option's
   * error, whatever the options after it would do.
   */
  lemma FirstFailingOption(options: seq<DmOption>, i: nat, q: DmParams)
    requires i < |options|
    requires ApplyOptions(ZeroParams, options[..i]) == Success(q)
    requires options[i](q).Failure?
    ensures ApplyOptions(ZeroParams, options) == Failure(options[i](q).error)
  {
    assert options == options[..i] + options[i..];
    ApplyOptionsConcat(ZeroParams, options[..i], options[i..]);
  }
}
