/**
 * The fixed-capacity `heapless::String<N>` the firmware writes its URL and
 * its text labels into. The capacity counts UTF-8 bytes, not characters; an
 * append that does not fit fails and leaves the string as it was.
 */
module Heapless {
  import opened Wrappers

  /** Number of bytes the UTF-8 encoding of `c` occupies. */
  function Utf8Width(c: char): (w: nat)
    ensures 1 <= w <= 4
    ensures w == 1 <==> (c as int) < 0x80
  {
    if (c as int) < 0x80 then 1
    else if (c as int) < 0x800 then 2
    else if (c as int) < 0x1_0000 then 3
    else 4
  }

  /** Length in bytes of the UTF-8 encoding of `s` (Rust's `str::len`). */
  function ByteLen(s: string): nat
  {
    if s == [] then 0 else Utf8Width(s[0]) + ByteLen(s[1..])
  }

  /** Every character takes one to four bytes. */
  lemma {:induction false} ByteLenBounds(s: string)
    ensures |s| <= ByteLen(s) <= 4 * |s|
  {
    if s != [] {
      ByteLenBounds(s[1..]);
    }
  }

  predicate IsAscii(s: string)
  {
    forall i :: 0 <= i < |s| ==> (s[i] as int) < 0x80
  }

  lemma {:induction false} ByteLenAppend(a: string, b: string)
    ensures ByteLen(a + b) == ByteLen(a) + ByteLen(b)
  {
    if a != [] {
      assert (a + b)[0] == a[0];
      assert (a + b)[1..] == a[1..] + b;
      ByteLenAppend(a[1..], b);
    } else {
      assert a + b == b;
    }
  }

  lemma AsciiAppend(a: string, b: string)
    requires IsAscii(a) && IsAscii(b)
    ensures IsAscii(a + b)
  {
    forall i | 0 <= i < |a + b| ensures ((a + b)[i] as int) < 0x80 {
      if i >= |a| {
        assert (a + b)[i] == b[i - |a|];
      }
    }
  }

  /** An ASCII string takes one byte per character. */
  lemma {:induction false} AsciiByteLen(s: string)
    requires IsAscii(s)
    ensures ByteLen(s) == |s|
  {
    if s != [] {
      assert IsAscii(s[1..]) by {
        forall i | 0 <= i < |s[1..]| ensures (s[1..][i] as int) < 0x80 {
          assert s[1..][i] == s[i + 1];
        }
      }
      AsciiByteLen(s[1..]);
    }
  }

  /** The pieces of a `write!`, joined in the order they are written. */
  function Concat(pieces: seq<string>): string
  {
    if pieces == [] then [] else pieces[0] + Concat(pieces[1..])
  }

  lemma ConcatOne(a: string)
    ensures Concat([a]) == a
  {
    assert [a][1..] == [];
  }

  lemma ConcatTwo(a: string, b: string)
    ensures Concat([a, b]) == a + b
  {
    assert [a, b][1..] == [b];
    ConcatOne(b);
  }

  class HString {
    const capacity: nat
    var text: string

    ghost predicate Valid()
      reads this
    {
      ByteLen(text) <= capacity
    }

    /** `String::new()`. */
    constructor (capacity: nat)
      ensures this.capacity == capacity && text == [] && Valid()
    {
      this.capacity := capacity;
      text := [];
    }

    /** `push_str`: appends `s` when the result fits, otherwise fails and changes nothing. */
    method PushStr(s: string) returns (ok: bool)
      requires Valid()
      modifies this
      ensures Valid()
      ensures ok <==> ByteLen(old(text)) + ByteLen(s) <= capacity
      ensures text == if ok then old(text) + s else old(text)
      ensures ByteLen(text) == if ok then ByteLen(old(text)) + ByteLen(s) else ByteLen(old(text))
    {
      ByteLenAppend(text, s);
      ok := ByteLen(text) + ByteLen(s) <= capacity;
      if ok {
        text := text + s;
      }
    }

    /**
     * `write!(&mut text, ...)`: the formatter pushes the pieces one after the
     * other and stops at the first that does not fit.
     */
    method Write(pieces: seq<string>) returns (ok: bool)
      requires Valid()
      modifies this
      ensures Valid()
      ensures ok <==> ByteLen(old(text)) + ByteLen(Concat(pieces)) <= capacity
      ensures ok ==> text == old(text) + Concat(pieces)
    {
      ok := true;
      var rest := pieces;
      while rest != []
        invariant Valid()
        invariant old(text) + Concat(pieces) == text + Concat(rest)
        invariant ByteLen(old(text)) + ByteLen(Concat(pieces)) == ByteLen(text) + ByteLen(Concat(rest))
      {
        ByteLenAppend(rest[0], Concat(rest[1..]));
        ok := PushStr(rest[0]);
        if !ok {
          return;
        }
        rest := rest[1..];
      }
    }
  }

  /**
   * The `Deserialize` of `heapless::Vec<T, N>`: every element must decode
   * and there may be at most `capacity` of them; otherwise the whole decode fails.
   */
  function DecodeVec<A, T>(items: seq<A>, element: A -> Option<T>, capacity: nat): (r: Option<seq<T>>)
    ensures r.Some? <==> |items| <= capacity && forall i :: 0 <= i < |items| ==> element(items[i]).Some?
    ensures r.Some? ==> |r.value| == |items| && forall i :: 0 <= i < |items| ==> element(items[i]) == Some(r.value[i])
    decreases |items|
  {
    if items == [] then Some([])
    else if capacity == 0 then None
    else
      match (element(items[0]), DecodeVec(items[1..], element, capacity - 1))
      case (Some(x), Some(rest)) => Some([x] + rest)
      case _ => None
  }

  /**
   * `let mut text: String<N> = String::new(); write!(&mut text, ...)`:
   * formats into a fresh buffer of `capacity` bytes.
   */
  method FormatInto(capacity: nat, pieces: seq<string>) returns (ok: bool, text: string)
    ensures ok <==> ByteLen(Concat(pieces)) <= capacity
    ensures ok ==> text == Concat(pieces)
  {
    var buffer := new HString(capacity);
    ok := buffer.Write(pieces);
    text := buffer.text;
  }
}
