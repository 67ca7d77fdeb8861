/**
 * Result shaping around two vendor calls: fetching one direct message by id,
 * and collecting the pages of the friend list.
 */
module Queries {
  import opened Wrappers
  import opened Types

  /**
   * Tdm.GetDm as written, given the outcome of the show call: the message when
   * exactly one came back; otherwise the zero message together with the
   * call's own error, which is no error at all when the call succeeded with
   * zero or several messages.
   */
  function GetDm(call: Result<seq<DirectMessage>, Error>): (r: (DirectMessage, Option<Error>))
    ensures r.1 == None && r.0 != ZeroMessage ==> call.Success? && |call.value| == 1 && r.0 == call.value[0]
    ensures call.Success? && |call.value| == 1 ==> r == (call.value[0], None)
    ensures call.Failure? ==> r == (ZeroMessage, Some(call.error))
    ensures call.Success? && |call.value| != 1 ==> r == (ZeroMessage, None)
  {
    if call.Failure? || |call.value| != 1 then
      (ZeroMessage, if call.Failure? then Some(call.error) else None)
    else
      (call.value[0], None)
  }

  /**
   * As written, a lookup that found nothing is reported as a success: the
   * caller receives the zero message with no error, just as if the vendor had
   * returned one message equal to the zero value.
   */
  lemma GetDmHidesNotFound()
    ensures GetDm(Success([])) == (ZeroMessage, None)
    ensures GetDm(Success([])) == GetDm(Success([ZeroMessage]))
  {
  }

  /** Why a corrected lookup produced no message. */
  datatype LookupError = NotFound(count: nat) | CallFailed(error: Error)

  /** GetDm as evidently intended: a wrong count is reported as not found. */
  function GetDmChecked(call: Result<seq<DirectMessage>, Error>): (r: Result<DirectMessage, LookupError>)
    ensures r.Success? <==> call.Success? && |call.value| == 1
    ensures r.Success? ==> r.value == call.value[0]
    ensures call.Failure? ==> r == Failure(CallFailed(call.error))
    ensures call.Success? && |call.value| != 1 ==> r == Failure(NotFound(|call.value|))
  {
    match call
    case Failure(e) => Failure(CallFailed(e))
    case Success(dms) => if |dms| == 1 then Success(dms[0]) else Failure(NotFound(|dms|))
  }

  /**
   * The corrected lookup agrees with the one as written wherever the latter
   * is unambiguous: the same message when one was found, the same error when
   * the call failed.
   */
  lemma GetDmCheckedAgrees(call: Result<seq<DirectMessage>, Error>)
    ensures GetDmChecked(call).Success? ==> GetDm(call) == (GetDmChecked(call).value, None)
    ensures GetDm(call).1.Some? ==> GetDmChecked(call) == Failure(CallFailed(GetDm(call).1.value))
    ensures GetDmChecked(call).Failure? ==> GetDm(call).0 == ZeroMessage
  {
  }

  /** All users of the pages, page after page. */
  function Flatten(pages: seq<seq<User>>): seq<User>
    decreases |pages|
  {
    if pages == [] then [] else pages[0] + Flatten(pages[1..])
  }

  /** A user is listed exactly when some page holds them; the length is the pages' total. */
  lemma {:induction false} FlattenMembers(pages: seq<seq<User>>, u: User)
    ensures u in Flatten(pages) <==> exists page :: page in pages && u in page
    decreases |pages|
  {
    if pages != [] {
      FlattenMembers(pages[1..], u);
      assert pages == [pages[0]] + pages[1..];
    }
  }

  /** The accumulation loop of GetFriends: append every page's users to seed, in page order. */
  method AppendPages(seed: seq<User>, pages: seq<seq<User>>) returns (friends: seq<User>)
    ensures friends == seed + Flatten(pages)
  {
    friends := seed;
    for i := 0 to |pages|
      invariant friends + Flatten(pages[i..]) == seed + Flatten(pages)
    {
      assert pages[i..][1..] == pages[i + 1..];
      friends := friends + pages[i];
    }
    assert pages[|pages|..] == [];
  }

  /**
   * Tdm.GetFriends as written, given the friend pages: the list starts with a
   * placeholder zero user before the real friends, and page errors are never
   * reported.
   */
  method GetFriends(pages: seq<seq<User>>) returns (friends: seq<User>, err: Option<Error>)
    ensures friends == [ZeroUser] + Flatten(pages)
    ensures |friends| == |Flatten(pages)| + 1
    ensures err == None
  {
    friends := AppendPages([ZeroUser], pages);
    err := None;
  }

  /**
   * As written, a user who follows nobody still gets a one-element friend
   * list, and a single friend comes second.
   */
  lemma PlaceholderFriend(u: User)
    ensures [ZeroUser] + Flatten([]) == [ZeroUser]
    ensures [ZeroUser] + Flatten([[u]]) == [ZeroUser, u]
  {
    assert Flatten([[u]]) == [u] by {
      assert [[u]][1..] == [];
    }
  }

  /** GetFriends as evidently intended: exactly the users of the pages, in order. */
  method GetFriendsFixed(pages: seq<seq<User>>) returns (friends: seq<User>, err: Option<Error>)
    ensures friends == Flatten(pages)
    ensures forall u :: u in friends <==> exists page :: page in pages && u in page
    ensures err == None
  {
    friends := AppendPages([], pages);
    forall u | true
      ensures u in friends <==> exists page :: page in pages && u in page
    {
      FlattenMembers(pages, u);
    }
    err := None;
  }
}
