/**
 The DOS port's in-process clipboard (dos/pdcclip.c). The store is one
 private buffer that is either absent (the clipboard is empty) or an owned,
 NUL-terminated character buffer. The four operations get a copy, set,
 release a copy and clear. Allocation success is an input (`allocOk`)
 because it is the one nondeterministic choice the C code makes.
 */
module DosClipboard {
  import opened CString

  /** The status codes of the clipboard API. */
  datatype Status = Success | AccessError | Empty | MemoryError

  datatype Option<T> = None | Some(value: T)

  /** The marker `PDC_freeclipboard` writes over a released copy. */
  const SENTINEL: string := "PDCURSES"

  /**
   What a released copy holds just before it is freed: a copy whose text is
   at least as long as the marker has its text replaced by the marker (the
   marker and its NUL overwrite the front, the rest is left as it was); a
   shorter one is left untouched.
   */
  function Poisoned(s: seq<char>): (r: seq<char>)
    requires NUL in s
    ensures |r| == |s| && NUL in r
    ensures StrLen(s) >= |SENTINEL| ==>
      r[..|SENTINEL| + 1] == SENTINEL + [NUL] && r[|SENTINEL| + 1..] == s[|SENTINEL| + 1..] &&
      CText(r) == SENTINEL
    ensures StrLen(s) < |SENTINEL| ==> r == s
  {
    if StrLen(s) >= |SENTINEL| then
      TerminatedText(SENTINEL, []);
      Copied(s, SENTINEL + [NUL])
    else s
  }

  class Clipboard {
    /** The stored buffer; null when nothing is set. */
    var clip: array?<char>

    ghost predicate Valid()
      reads this, clip
    {
      clip != null ==> NUL in clip[..]
    }

    /** The abstract store: Empty (None) or Holding(text). */
    ghost function Contents(): (c: Option<string>)
      reads this, clip
      requires Valid()
    {
      if clip == null then None else Some(CText(clip[..]))
    }

    /** The store starts out empty. */
    constructor ()
      ensures Valid() && Contents() == None
    {
      clip := null;
    }

    /**
     `PDC_getclipboard`. `contents0` and `length0` are what the caller's
     variables hold before the call; `contents` and `length` are what they
     hold after it. On an empty store neither is written. Otherwise a copy
     buffer is allocated and `*contents` is written with it (null if the
     allocation failed); only a successful copy also writes `*length`. The
     store is not changed (the method modifies nothing that exists).
     */
    method Get(allocOk: bool, contents0: array?<char>, length0: int)
      returns (status: Status, contents: array?<char>, length: int)
      requires Valid()
      ensures Contents() == None ==>
        status == Empty && contents == contents0 && length == length0
      ensures Contents() != None && !allocOk ==>
        status == MemoryError && contents == null && length == length0
      ensures Contents() != None && allocOk ==>
        status == Success && contents != null && fresh(contents) &&
        contents[..] == Contents().value + [NUL] &&
        length == |Contents().value| == StrLen(clip[..])
    {
      if clip == null {
        return Empty, contents0, length0;
      }
      var len := StrLen(clip[..]);
      if !allocOk {
        return MemoryError, null, length0;
      }
      contents := new char[len + 1];
      StrCpy(contents, clip[..]);
      assert contents[..] == contents[..len + 1];
      length := len;
      status := Success;
    }

    /**
     `PDC_setclipboard`. The old buffer is always discarded first. A null
     `contents` leaves the store empty. Otherwise a buffer of `length + 1`
     characters is allocated and the caller's text is copied in with
     `strcpy`, so the store holds the caller's text up to its first NUL;
     staying inside the new buffer needs `strlen(contents) <= length`. If
     the allocation fails the store stays empty.
     */
    method Set(contents: array?<char>, length: int, allocOk: bool) returns (status: Status)
      requires Valid()
      requires contents != null ==> NUL in contents[..] && StrLen(contents[..]) <= length
      modifies this
      ensures Valid()
      ensures contents == null ==> status == Success && Contents() == None
      ensures contents != null && !allocOk ==> status == MemoryError && Contents() == None
      ensures contents != null && allocOk ==>
        status == Success && clip != null && fresh(clip) && clip.Length == length + 1 &&
        Contents() == Some(CText(contents[..]))
    {
      if clip != null {
        clip := null;
      }
      if contents != null {
        if !allocOk {
          return MemoryError;
        }
        var buf := new char[length + 1];
        StrCpy(buf, contents[..]);
        clip := buf;
      }
      return Success;
    }

    /**
     `PDC_freeclipboard`. Null is a no-op. A copy whose text is at least as
     long as the marker gets the marker written over it, then it is released
     (release is not observable here: the caller's array is left as it was
     just before `free`). The store is never touched; a caller can only hold
     copies, never the store's own buffer.
     */
    method Free(contents: array?<char>) returns (status: Status)
      requires Valid()
      requires contents != null ==> NUL in contents[..] && contents != clip
      modifies contents
      ensures status == Success
      ensures contents != null ==> contents[..] == Poisoned(old(contents[..]))
      ensures Valid() && Contents() == old(Contents())
    {
      if contents != null {
        if StrLen(contents[..]) >= |SENTINEL| {
          TerminatedText(SENTINEL, []);
          StrCpy(contents, SENTINEL + [NUL]);
        }
      }
      return Success;
    }

    /** `PDC_clearclipboard`: empties the store; always succeeds. */
    method Clear() returns (status: Status)
      requires Valid()
      modifies this
      ensures Valid() && status == Success && Contents() == None
    {
      if clip != null {
        clip := null;
      }
      return Success;
    }

    /**
     A successful set followed by a successful get hands back the caller's
     text up to its first NUL, with its `strlen` as the length, in a buffer
     that is neither the caller's nor the store's.
     */
    method SetThenGet(s: array<char>, length: int) returns (status: Status, copy: array?<char>, n: int)
      requires Valid()
      requires NUL in s[..] && StrLen(s[..]) <= length
      modifies this
      ensures Valid()
      ensures status == Success && copy != null && fresh(copy)
      ensures copy[..] == CText(s[..]) + [NUL] && CText(copy[..]) == CText(s[..])
      ensures n == StrLen(s[..])
    {
      var st := Set(s, length, true);
      status, copy, n := Get(true, null, 0);
      TerminatedText(CText(s[..]), []);
    }

    /** Clearing twice leaves the same store as clearing once; both calls succeed. */
    method ClearTwice() returns (first: Status, second: Status)
      requires Valid()
      modifies this
      ensures Valid() && first == Success && second == Success && Contents() == None
    {
      first := Clear();
      ghost var once := Contents();
      second := Clear();
      assert Contents() == once;
    }
  }

  /**
   A sample session: a new store is empty; set "HELLO" and get it back with
   length 5; release the copy; clear and get nothing; set NULL and still get
   nothing.
   */
  method HelloScenario() {
    var board := new Clipboard();
    var st, copy, n := board.Get(true, null, -1);
    assert st == Empty && n == -1;
    var hello := new char[6];
    hello[0], hello[1], hello[2], hello[3], hello[4], hello[5] := 'H', 'E', 'L', 'L', 'O', NUL;
    TerminatedText("HELLO", []);
    assert hello[..] == "HELLO" + [NUL];
    st := board.Set(hello, 5, true);
    assert st == Success;
    st, copy, n := board.Get(true, null, -1);
    assert st == Success && copy[..] == "HELLO" + [NUL] && n == 5;
    st := board.Free(copy);
    assert st == Success;
    st := board.Clear();
    st, copy, n := board.Get(true, null, -1);
    assert st == Empty;
    st := board.Set(null, 0, true);
    assert st == Success;
    st, copy, n := board.Get(true, null, -1);
    assert st == Empty;
  }
}
