/** The array that grows by a fifth. */
module DymArray {
  const INITIAL_LENGTH: nat := 16
  const INCREASE_PER_CENTS: nat := 20

  type Pointer = nat

  function Grown(n: nat): nat { n * (100 + INCREASE_PER_CENTS) / 100 }

  /** `copies` counts the elements moved to a new buffer so far. */
  class DymArray {
    var data: array<Pointer>
    var validLength: nat
    ghost var copies: nat

    ghost predicate Valid()
      reads this
    {
      validLength <= data.Length
    }

    ghost function Contents(): (s: seq<Pointer>)
      requires Valid()
      reads this, data
      ensures |s| == validLength
    {
      data[..validLength]
    }

    constructor ()
      ensures Valid() && fresh(data) && Contents() == [] && data.Length == INITIAL_LENGTH && copies == 0
    {
      data := new Pointer[INITIAL_LENGTH];
      validLength, copies := 0, 0;
    }

    /** DymArrayReserve: a shorter buffer keeps the first elements. */
    method Reserve(length: nat, memory: bool) returns (ok: bool)
      requires Valid()
      modifies this
      ensures Valid() && ok == memory
      ensures ok ==> fresh(data) && data.Length == length
      ensures ok ==> Contents() == old(Contents())[..if old(validLength) < length then old(validLength) else length]
      ensures ok ==> copies == old(copies) + validLength
      ensures !ok ==> data == old(data) && validLength == old(validLength) && copies == old(copies)
    {
      ok := memory;
      if memory {
        var tmp := new Pointer[length];
        var minLength := if validLength < length then validLength else length;
        var i: nat := 0;
        while i < minLength
          modifies tmp
          invariant i <= minLength && forall k :: 0 <= k < i ==> tmp[k] == data[k]
        {
          tmp[i] := data[i];
          i := i + 1;
        }
        assert tmp[..minLength] == data[..validLength][..minLength];
        data, validLength, copies := tmp, minLength, copies + minLength;
      }
    }

    /** The growth of DymArrayPushBack and DymArrayPushFront: by a fifth, or else by one.
        `first` and `second` are whether memory can be had for either attempt. */
    method MakeRoom(first: bool, second: bool) returns (ok: bool)
      requires Valid()
      modifies this
      ensures Valid() && Contents() == old(Contents()) && (data == old(data) || fresh(data))
      ensures ok == (old(validLength) < old(data.Length) || (first && Grown(old(data.Length)) > old(data.Length)) || second)
      ensures ok ==> validLength < data.Length
      ensures old(validLength) < old(data.Length) ==> data == old(data) && copies == old(copies)
      ensures old(validLength) == old(data.Length) && first && Grown(old(data.Length)) > old(data.Length) ==>
        data.Length == Grown(old(data.Length)) && copies == old(copies) + old(validLength)
      ensures ok && old(validLength) == old(data.Length) && !(first && Grown(old(data.Length)) > old(data.Length)) ==>
        data.Length == old(data.Length) + 1
    {
      ok := true;
      if validLength == data.Length {
        ok := Reserve(Grown(data.Length), first);
        if validLength == data.Length {
          ok := Reserve(data.Length + 1, second);
        }
      }
    }

    /** DymArrayPushBack. */
    method PushBack(value: Pointer, first: bool, second: bool) returns (ok: bool)
      requires Valid()
      modifies this, data
      ensures Valid() && (data == old(data) || fresh(data)) && (first && second ==> ok)
      ensures Contents() == if ok then old(Contents()) + [value] else old(Contents())
      ensures old(validLength) < old(data.Length) ==> ok && data == old(data) && copies == old(copies)
      ensures old(validLength) == old(data.Length) && first && Grown(old(data.Length)) > old(data.Length) ==>
        ok && data.Length == Grown(old(data.Length)) && copies == old(copies) + old(validLength)
    {
      ok := MakeRoom(first, second);
      if ok {
        ghost var was := Contents();
        data[validLength] := value;
        validLength := validLength + 1;
        assert Contents() == was + [value];
      }
    }

    /** DymArrayPushFront. */
    method PushFront(value: Pointer, first: bool, second: bool) returns (ok: bool)
      requires Valid()
      modifies this, data
      ensures Valid() && (data == old(data) || fresh(data)) && (first && second ==> ok)
      ensures Contents() == if ok then [value] + old(Contents()) else old(Contents())
    {
      ok := MakeRoom(first, second);
      if ok {
        ghost var was := data[..];
        var i: nat := validLength;
        while i > 0
          modifies data
          invariant i <= validLength
          invariant forall k :: i < k <= validLength ==> data[k] == was[k - 1]
          invariant forall k :: 0 <= k <= i ==> data[k] == was[k]
        {
          data[i] := data[i - 1];
          i := i - 1;
        }
        data[0] := value;
        validLength := validLength + 1;
        assert Contents() == [value] + was[..validLength - 1];
      }
    }

    /** DymArrayPopBack. */
    method PopBack() returns (r: Pointer)
      requires Valid() && validLength > 0
      modifies this`validLength
      ensures Valid() && old(Contents()) == Contents() + [r]
    {
      r := data[validLength - 1];
      validLength := validLength - 1;
    }

    /** DymArrayPopFront. */
    method PopFront() returns (r: Pointer)
      requires Valid() && validLength > 0
      modifies this`validLength, data
      ensures Valid() && old(Contents()) == [r] + Contents()
    {
      ghost var was := data[..];
      r := data[0];
      var i: nat := 0;
      while i < validLength - 1
        modifies data
        invariant i <= validLength - 1
        invariant forall k :: 0 <= k < i ==> data[k] == was[k + 1]
        invariant forall k :: i <= k < data.Length ==> data[k] == was[k]
      {
        data[i] := data[i + 1];
        i := i + 1;
      }
      validLength := validLength - 1;
      assert was[..validLength + 1] == [r] + was[1..validLength + 1];
    }

    /** DymArrayPushArray: the buffer becomes exactly as long as needed. */
    method PushArray(values: array<Pointer>, memory: bool) returns (ok: bool)
      requires Valid() && values != data
      modifies this, data
      ensures Valid() && ok == memory && (data == old(data) || fresh(data))
      ensures Contents() == if ok then old(Contents()) + values[..] else old(Contents())
      ensures ok ==> data.Length == validLength
    {
      ghost var was := Contents();
      ok := Reserve(validLength + values.Length, memory);
      if ok {
        var i := 0;
        while i < values.Length
          invariant i <= values.Length && validLength == |was| + i && data.Length == |was| + values.Length
          invariant fresh(data)
          invariant Contents() == was + values[..i]
        {
          data[validLength] := values[i];
          validLength := validLength + 1;
          assert Contents() == was + values[..i] + [values[i]];
          i := i + 1;
        }
        assert values[..i] == values[..];
      }
    }
  }

  /** A fifth more, rounded down: more only from five elements on. */
  lemma GrowsByAFifth(n: nat)
    ensures Grown(n) == n + n / 5 && (Grown(n) > n <==> n >= 5)
  {}

  /** A fifth more is at least a seventh more, from 14 elements on. */
  lemma GrowthIsEnough(n: nat)
    requires n >= INITIAL_LENGTH
    ensures 7 * Grown(n) >= 8 * n && Grown(n) > n
  {
    if n < 18 {
      assert n == 16 || n == 17;
    }
  }

  /** Pushing n elements one by one onto a new array moves at most 8n elements, as long as
      memory can be had. */
  method PushAll(values: seq<Pointer>) returns (a: DymArray)
    ensures fresh(a) && a.Valid() && a.Contents() == values && a.copies <= 8 * |values|
  {
    a := new DymArray();
    var i := 0;
    while i < |values|
      invariant i <= |values| && fresh(a) && fresh(a.data) && a.Valid() && a.Contents() == values[..i]
      invariant a.copies <= 8 * a.validLength && a.copies <= 7 * a.data.Length && a.data.Length >= INITIAL_LENGTH
    {
      GrowthIsEnough(a.data.Length);
      hide Grown;
      var ok := a.PushBack(values[i], true, true);
      i := i + 1;
    }
  }
}
