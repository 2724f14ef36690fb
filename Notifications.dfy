/** The notification ledger every validated entity of the store carries, and
    the four contract checks the order-creation core uses.

    A check yields no notification when its rule holds and exactly one, with
    the given key and message, when it fails.  A contract is the
    concatenation of its checks: every check always runs, and the failures
    reach the ledger in the order the checks are written. */
module Notifications {

  /** A value that may be absent: the model of a C# null reference. */
  datatype Option<+T> = None | Some(value: T)

  /** One validation failure: the field it is about and a readable message. */
  datatype Notification = Notification(key: string, message: string)

  /** A ledger is valid exactly when no notification has been recorded. */
  predicate IsValid(ledger: seq<Notification>)
    ensures IsValid(ledger) <==> forall n :: n !in ledger
  {
    assert ledger != [] ==> ledger[0] in ledger;
    ledger == []
  }

  /** The positions of a string that hold a character outside the Basic
      Multilingual Plane. */
  function AstralPositions(s: string): (p: set<int>)
    ensures forall i :: i in p <==> 0 <= i < |s| && s[i] as int >= 0x1_0000
  {
    set i | 0 <= i < |s| && s[i] as int >= 0x1_0000
  }

  /** The length C# reports for a string: the number of UTF-16 code units,
      one for a character of the Basic Multilingual Plane and two (a
      surrogate pair) for any other character. */
  function Utf16Length(s: string): (n: nat)
    ensures |s| <= n <= 2 * |s|
  {
    PositionsBound(AstralPositions(s), |s|);
    |s| + |AstralPositions(s)|
  }

  /** A set of positions below n has at most n elements. */
  lemma {:induction false} PositionsBound(p: set<int>, n: nat)
    requires forall i :: i in p ==> 0 <= i < n
    ensures |p| <= n
  {
    if n > 0 {
      var below := p - {n - 1};
      PositionsBound(below, n - 1);
      assert p <= below + {n - 1};
    } else {
      assert forall i :: i !in p;
      assert p == {};
    }
  }

  /** On text made only of Basic Multilingual Plane characters, such as
      digits, the C# length is the number of characters. */
  lemma Utf16LengthOfBmp(s: string)
    requires forall i :: 0 <= i < |s| ==> s[i] as int < 0x1_0000
    ensures Utf16Length(s) == |s|
  {
    assert AstralPositions(s) == {};
  }

  /** A character outside the Basic Multilingual Plane counts twice. */
  lemma Utf16LengthOfAstral(c: char)
    requires c as int >= 0x1_0000
    ensures Utf16Length([c]) == 2
  {
    assert AstralPositions([c]) == {0};
  }

  /** Fails when the value is absent. */
  function IsNotNull<T>(value: Option<T>, key: string, message: string): (r: seq<Notification>)
    ensures |r| <= 1
    ensures r == [] <==> value.Some?
    ensures value.None? ==> r == [Notification(key, message)]
  {
    if value.Some? then [] else [Notification(key, message)]
  }

  /** Fails when the number is below the comparer. */
  function IsGreaterOrEqualsThan(value: int, comparer: int, key: string, message: string): (r: seq<Notification>)
    ensures |r| <= 1
    ensures r == [] <==> value >= comparer
    ensures value < comparer ==> r == [Notification(key, message)]
  {
    if value >= comparer then [] else [Notification(key, message)]
  }

  /** On a string: fails unless its C# length is strictly greater than the comparer. */
  function IsGreaterThan(value: string, comparer: int, key: string, message: string): (r: seq<Notification>)
    ensures |r| <= 1
    ensures r == [] <==> Utf16Length(value) > comparer
    ensures Utf16Length(value) <= comparer ==> r == [Notification(key, message)]
  {
    if Utf16Length(value) > comparer then [] else [Notification(key, message)]
  }

  /** On a string: fails unless its C# length is strictly lower than the comparer. */
  function IsLowerThan(value: string, comparer: int, key: string, message: string): (r: seq<Notification>)
    ensures |r| <= 1
    ensures r == [] <==> Utf16Length(value) < comparer
    ensures Utf16Length(value) >= comparer ==> r == [Notification(key, message)]
  {
    if Utf16Length(value) < comparer then [] else [Notification(key, message)]
  }

  /** Merging a ledger into another only appends: a ledger that held a
      notification keeps it, whatever is merged into it later. */
  lemma MergeKeepsInvalid(ledger: seq<Notification>, merged: seq<Notification>)
    ensures IsValid(ledger + merged) <==> IsValid(ledger) && IsValid(merged)
    ensures (ledger + merged)[..|ledger|] == ledger
  {
    if ledger != [] {
      assert (ledger + merged)[0] == ledger[0];
    }
  }
}
