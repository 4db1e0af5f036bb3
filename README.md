# PDCurses DOS clipboard, modelled in Dafny

PDCurses' DOS port keeps its clipboard inside the process: one private
pointer, `pdc_DOS_clipboard`, that is either NULL (the clipboard is empty)
or an owned, NUL-terminated character buffer. `PDC_getclipboard` hands the
caller a fresh copy of the stored text and its `strlen`. `PDC_setclipboard`
first frees the old buffer, then stores a `strcpy` of the caller's text.
`PDC_freeclipboard` overwrites a caller's copy with the marker `PDCURSES`
when the copy is long enough, then frees it. `PDC_clearclipboard` empties
the store.

The project has two modules:

- `CString` (cstring.dfy): C strings as character buffers whose text ends
  at the first NUL. `StrLen` is `strlen` and `CText` is the text a buffer
  holds. `Copied` says what `strcpy` leaves in a buffer, and the method
  `StrCpy` is `strcpy` on an array, proved against `Copied`.
- `DosClipboard` (pdcclip.dfy): the status codes, the marker, and the class
  `Clipboard`. Its nullable array field `clip` is `pdc_DOS_clipboard`.
  The ghost function `Contents()` gives the abstract store: `None` (Empty)
  or `Some(text)` (Holding).

Allocation success is a `bool` parameter `allocOk` of each method that
allocates. `PDC_getclipboard` writes through two pointer arguments, and
whether it writes them at all matters. So `Get` takes the values the
caller's variables hold before the call and returns the values they hold
after it. Freeing is not observable. `Free` leaves the caller's array as it
was just before `free`, so the marker can be seen.

`PDC_setclipboard` sizes the new buffer from `length` but copies with
`strcpy` (dos/pdcclip.c:104-107), so `length` does not decide what is
stored. The store holds the caller's text up to its first NUL, and `Set`
requires `strlen(contents) <= length` so that the copy stays inside the
buffer. The length that get reports is the `strlen` of the stored text
(dos/pdcclip.c:60,65), not the `length` given to set.

## Model

| member | source | states |
|---|---|---|
| CString.StrLen | dos/pdcclip.c:60 | `strlen` as used by the clipboard: the result is the index of the first NUL in the buffer, and no NUL comes before it |
| CString.CText | dos/pdcclip.c:32-36 | the text of a C string contains no NUL, and the text followed by a NUL is a prefix of the buffer |
| CString.TerminatedText | dos/pdcclip.c:107 | a buffer that starts with a NUL-free text and a NUL has that text's length as its `strlen` and that text as its text, whatever follows |
| CString.Copied | dos/pdcclip.c:107 | what `strcpy` leaves in a destination with room for it: the destination keeps its size, reads back as the source's text with the source's `strlen`, and everything after the copied NUL is unchanged |
| CString.StrCpy | dos/pdcclip.c:64 | `strcpy` on an array, character by character: the array ends up exactly as `Copied` describes |
| DosClipboard.Poisoned | dos/pdcclip.c:147-148 | a released copy whose `strlen` is at least 8 has `PDCURSES` and a NUL as its first 9 characters, reads back as exactly `PDCURSES`, and keeps the rest; a shorter one is unchanged; the length of the buffer never changes |
| DosClipboard.Clipboard.constructor | dos/pdcclip.c:23 | the store starts out empty |
| DosClipboard.Clipboard.Get | dos/pdcclip.c:51-68 | empty store: returns EMPTY and writes neither output; failed copy allocation: MEMORY_ERROR, the contents output becomes null and the length output is not written; otherwise SUCCESS, a fresh buffer holding exactly the stored text and a NUL, and the length is the stored text's `strlen`; the store is never changed |
| DosClipboard.Clipboard.Set | dos/pdcclip.c:92-111 | NULL contents: SUCCESS and the store is empty, whatever `length` is; failed allocation: MEMORY_ERROR and the store is empty, not its old value; otherwise SUCCESS, a fresh buffer of `length + 1` characters holding the caller's text up to its first NUL |
| DosClipboard.Clipboard.Free | dos/pdcclip.c:131-154 | always SUCCESS; NULL is a no-op; a non-NULL copy becomes `Poisoned` of what it held; the store is unchanged |
| DosClipboard.Clipboard.Clear | dos/pdcclip.c:173-184 | always SUCCESS, and the store is empty afterwards |
| DosClipboard.Clipboard.SetThenGet | dos/pdcclip.c:92-111 | round trip: a successful set followed by a successful get gives a fresh buffer that holds the caller's text up to its first NUL, and its `strlen` as the length |
| DosClipboard.Clipboard.ClearTwice | dos/pdcclip.c:173-184 | clearing is idempotent: two clears leave the same empty store as one, and both succeed |

## Left out

- `PDC_get_columns` and `PDC_get_rows` (x11/pdcgetsc.c) only return display globals owned elsewhere. x11/pdcgetsc.c is not part of this model.
- `PDC_LOG` calls and the `RCSID` line are logging and build metadata.
- `malloc` and `free` are not modelled as memory. Allocation success is the input `allocOk`. Freeing drops the buffer, and use after free cannot be expressed.
- `AccessError` is in `Status` for parity with the documented return values. No operation of this file returns it.
- The numeric values of the status codes live in curses.h, which is not part of this model.
- `Get`: integers are unbounded. The code keeps `strlen` in an `int` and returns it through a `long`, which overflows on very long texts.
- `Set`: a negative `length` or a text longer than `length` would overflow the new buffer in C. The model requires `strlen(contents) <= length` instead.
- `Set`: the characters of the new buffer after the copied NUL are uninitialised in C. In the model they hold Dafny's default character. They are never read.
- `Free`: a caller could pass a pointer that does not come from get. The model requires that the buffer is not the store's own buffer. The store's buffer is private, and get always returns a fresh copy.
