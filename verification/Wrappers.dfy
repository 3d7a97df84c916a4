/**
 Values that may be missing, and outcomes that may be errors, for every other module.
 */
module Wrappers {

  datatype Option<+T> = None | Some(value: T)

  datatype Result<+T, +E> = Ok(value: T) | Err(error: E) {
    predicate IsFailure() { Err? }

    function PropagateFailure<U>(): Result<U, E>
      requires Err?
    {
      Err(error)
    }

    function Extract(): T
      requires Ok?
    {
      value
    }
  }

  /** room-<ordinal>, the name of a room of the fleet. */
  predicate RoomName(roomId: string) {
    && |roomId| > 5 && roomId[..5] == "room-"
    && forall k | 5 <= k < |roomId| :: '0' <= roomId[k] <= '9'
  }

  /** The name is "room-" and a number. */
  ghost predicate NamesRoom(roomId: string) {
    exists digits: string ::
      roomId == "room-" + digits && digits != [] && forall c | c in digits :: c in "0123456789"
  }

  lemma RoomNameWrittenOut(roomId: string)
    ensures RoomName(roomId) <==> NamesRoom(roomId)
  {
    if RoomName(roomId) {
      var digits := roomId[5..];
      assert roomId == "room-" + digits;
      forall c | c in digits
        ensures c in "0123456789"
      {
        var k :| 0 <= k < |digits| && digits[k] == c;
        assert roomId[k + 5] == c;
      }
    }
    if digits: string :| roomId == "room-" + digits && digits != [] && forall c | c in digits :: c in "0123456789" {
      assert roomId[..5] == "room-" && roomId[5..] == digits;
      forall k | 5 <= k < |roomId|
        ensures '0' <= roomId[k] <= '9'
      {
        assert roomId[k] == digits[k - 5] && digits[k - 5] in digits;
      }
    }
  }

  function Min(a: nat, b: nat): (r: nat)
    ensures r <= a && r <= b && (r == a || r == b)
  {
    if a <= b then a else b
  }

  function Pow2(n: nat): (p: nat)
    ensures p >= 1
  {
    if n == 0 then 1 else 2 * Pow2(n - 1)
  }
}
