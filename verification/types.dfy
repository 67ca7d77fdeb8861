/**
 * The vendor records the client reads (a direct message, a user) and the
 * request-parameter map it hands to the vendor client.
 */
module Types {

  /** Go's int64; Go's int is 64 bits wide on the platforms the client targets. */
  type Int64 = x: int | -0x8000_0000_0000_0000 <= x <= 0x7fff_ffff_ffff_ffff

  /** A Go error value, by its message. */
  type Error = string

  /** The fields of a vendor user record that the client reads. */
  datatype User = User(id: Int64, screenName: string)

  /** Go's zero value of a user record. */
  const ZeroUser: User := User(0, "")

  /** The fields of a vendor direct message that the client reads. */
  datatype DirectMessage = DirectMessage(
    senderId: Int64,
    senderScreenName: string,
    recipientId: Int64,
    recipientScreenName: string,
    text: string)

  /** Go's zero value of a direct message. */
  const ZeroMessage: DirectMessage := DirectMessage(0, "", 0, "", "")

  /** Query parameters of a request (Go's url.Values: a key maps to a list of values). */
  type Values = map<string, seq<string>>

  /** url.Values.Set: the key is bound to exactly one value, replacing what it had. */
  function SetValue(v: Values, key: string, value: string): (w: Values)
    ensures w.Keys == v.Keys + {key}
    ensures w[key] == [value]
    ensures forall k :: k in v && k != key ==> w[k] == v[k]
  {
    v[key := [value]]
  }
}
