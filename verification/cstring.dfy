/** The two C-library views of `header_buf` that response selection relies on:
    a NUL-terminated string, and `strstr`'s search for a literal in it. */
module CString {
  import opened Bytes

  datatype Option<T> = None | Some(value: T)

  /** `needle` starts at index `i` of `hay`. */
  predicate OccursAt(hay: seq<byte>, needle: seq<byte>, i: int) {
    0 <= i && i + |needle| <= |hay| && hay[i..i + |needle|] == needle
  }

  /** `needle` occurs somewhere in `hay`. */
  ghost predicate Mentions(hay: seq<byte>, needle: seq<byte>) {
    exists i :: OccursAt(hay, needle, i)
  }

  /** Scan of `hay` for `needle`, left to right from index `k`. */
  function FindFrom(hay: seq<byte>, needle: seq<byte>, k: nat): (r: Option<nat>)
    requires k <= |hay|
    ensures r.Some? ==> k <= r.value && OccursAt(hay, needle, r.value)
    ensures r.Some? ==> forall j :: k <= j < r.value ==> !OccursAt(hay, needle, j)
    ensures r.None? ==> forall j :: k <= j ==> !OccursAt(hay, needle, j)
    decreases |hay| - k
  {
    if OccursAt(hay, needle, k) then Some(k)
    else if k == |hay| then None
    else FindFrom(hay, needle, k + 1)
  }

  /** `strstr(hay, needle)`: the index of the first occurrence of `needle`, or
      None (the NULL pointer) when there is none. */
  function StrStr(hay: seq<byte>, needle: seq<byte>): (r: Option<nat>)
    ensures r.Some? ==> OccursAt(hay, needle, r.value)
    ensures r.Some? ==> forall j :: 0 <= j < r.value ==> !OccursAt(hay, needle, j)
    ensures r.None? <==> !Mentions(hay, needle)
  {
    FindFrom(hay, needle, 0)
  }

  /** The C string that starts at the first octet of `buf`: everything before the
      first NUL. When `buf` holds no NUL at all, a C reader runs off its end; the
      model stops at the end of `buf`. */
  function CStr(buf: seq<byte>): (r: seq<byte>)
    ensures r <= buf
    ensures forall i :: 0 <= i < |r| ==> r[i] != 0
    ensures |r| < |buf| ==> buf[|r|] == 0
  {
    if buf == [] || buf[0] == 0 then []
    else [buf[0]] + CStr(buf[1..])
  }
}
