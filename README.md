# shvim keystroke translator, modelled in Dafny

shvim runs vim inside a pseudo-terminal. It reads the user's raw terminal
input and translates "desktop editor" key presses into vim commands before
forwarding them. Shift+arrows select text, Backspace deletes the selection,
Ctrl+F searches, Ctrl+S saves, Ctrl+Q quits, and so on. Every other byte
goes to vim unchanged. This project models the translator core in both of
its generations and proves properties of each.

- `key_input.dfy`, module `KeyInput`: the vocabulary both generations
  share. It holds:
  - unsigned bytes;
  - the key names and the `Keystroke` record;
  - the cursor-key letter macros `IS_UDLREH` and `UDLREH_TO_NAME`;
  - the directive a key produces (commands to write, and whether its own
    bytes are forwarded);
  - the 256-byte `ReadBuf`, a class over an `array<byte>` with an
    `offset`. Its `Append` performs one `read()` into the free part of
    the buffer.
- `vi.dfy`, module `Vi`: the later generation, `src/vi.c`. It covers:
  - the control-byte table and the completeness test;
  - the full escape-sequence decoder;
  - the editor-mode state machine over `selecting`, `searching` and
    `jumping`;
  - `vi_process_stdin`, and the loop of `vi_drain_stdin`.

  The state machine is specified by the function `Transition`. The class
  `ViState` carries the flags as fields and follows the source's sequence
  of `if` blocks, and its contracts tie every method to the
  specification.
- `standalone.dfy`, module `Standalone`: the first generation,
  `src/main.c`. It covers:
  - the cursor-key-only decoder;
  - the Shift-selection logic on the global `vi_state.selecting`;
  - `process_stdin`, and the loop of `drain_stdin`.

Writes to vim are modelled as a log `written : seq<seq<byte>>`, one entry
per `write()` call. A run of `drain_stdin` is given the bytes the terminal
has ready as a sequence of chunks. Each `read()` takes as much of the first
chunk as fits in the free part of the buffer. Whatever does not fit stays
with the terminal and comes first in the next read (`KeyInput.Unread`).
The loop ends when every chunk has been read.

The model follows the code where its behaviour may be unexpected:

- An escape sequence that arrives split over two reads is not kept in the
  buffer until it is complete. `vi_process_stdin` empties the buffer after
  every call. The "incomplete" branch of `interpret_keystroke`
  (src/vi.c:140-143) can only be reached with an empty buffer, and there it
  is never taken. `Vi.SplitCursorKeyDeletesSelection` shows the effect: a
  cursor key read as `ESC` and then `O A` while selecting deletes the
  selection.
- `ESC [ A` (three bytes) is not decoded as Up. Short buffers are decoded
  by their first byte alone (`Vi.ShortBufferByFirstByte`), so it is Escape.
- `searching` and `jumping` are not mutually exclusive. Ctrl+F and Ctrl+L
  set them independently (`Vi.SearchingAndJumpingCoexist`,
  `Vi.SearchThenJump`).
- For the long CSI forms, modifier `5` decodes as Ctrl alone and `6` as
  Ctrl+Shift. The cursor form `ESC [ 1 ; m X` accepts only `2`, `5` and
  `6`, so xterm's Alt+Up `ESC [ 1 ; 3 A` decodes to nothing. In the
  page-key form any other modifier byte decodes as Shift, so `ESC [ 5 ; 3 ~`
  is Shift+PageUp.
- Plain PageUp and PageDown (`ESC [ 5 ~`, `ESC [ 6 ~`) are never decoded.
  The four-byte CSI form accepts only `1`, `3` and `4` (`Vi.ShortCsiForm`),
  so page keys are recognised only with a modifier.
- Neither generation has the `full_line_selection` flag, the one-column
  cursor nudge, or the paste handling.

## Model

| member | source | states |
|---|---|---|
| KeyInput.IsUdlreh | src/vi.c:22-25 | an accepted letter lies in A..H and is neither E nor G |
| KeyInput.UdlrehToName | src/vi.c:27-32 | every byte maps to one of the six cursor names, and any byte other than A, B, C, D, F falls through to home; on the cursor letters it is the inverse of `UdlrehByte` |
| KeyInput.UdlrehByte | src/vi.c:22-25 | the letter sent for a cursor key is one that `IS_UDLREH` accepts |
| KeyInput.UdlrehNameRoundTrip | src/main.c:69-79 | `UDLREH_TO_NAME` recovers each cursor key from its letter |
| KeyInput.Execute | src/vi.c:283-285 | the writes are the directive's commands, in order, followed by the raw input exactly when it is passed through |
| KeyInput.Fit | src/vi.c:307-308 | one read stores at most the free space, a prefix of what the terminal offers, and all of it when it fits |
| KeyInput.Unread | src/vi.c:306-310 | what the terminal still has ready after one read: exactly the bytes read fewer; a chunk that fitted is gone, and of one that did not, the unread tail comes first, so that what was read followed by it is the chunk, and the other chunks follow unchanged; the amount, or else the number of chunks, shrinks, so the loop ends |
| KeyInput.ReadBuf.constructor | src/vi.h:31-34 | a fresh buffer of `BUF_SIZE` bytes holds no pending input |
| KeyInput.ReadBuf.Append | src/vi.c:307-311 | after `read` and `offset += n`, the pending bytes are the old ones followed by what fit, in the same array |
| KeyInput.ReadBuf.Clear | src/vi.c:286 | `offset = 0` leaves no pending input |
| Vi.InterpretKeystroke | src/vi.c:57-146 | an empty buffer decodes to nothing; no decoded key carries Meta; Shift is only ever reported from a long `ESC [` form |
| Vi.KeystrokeComplete | src/vi.c:34-53 | six buffered bytes are always complete, and only a two- to five-byte buffer starting ESC O or ESC [ can be incomplete |
| Vi.WithModifier | src/vi.c:66-68 | the key keeps its name and has no Meta; at least one of Shift and Ctrl is set; Ctrl alone exactly for modifier 5, Ctrl+Shift exactly for 6 |
| Vi.CtrlIndex | src/vi.c:13-17 | a key name's slot in `ctrl_sequences` lies below 0x1E, the bound the decoder checks |
| Vi.CtrlTableIndex | src/vi.c:13-17 | every non-NULL entry of `ctrl_sequences` is found again at its own index |
| Vi.CtrlIndexInTable | src/vi.c:13-17 | a name with a slot is stored in the table at that slot |
| Vi.KeystrokeCompleteCases | src/vi.c:34-53 | a buffer is incomplete exactly for `ESC O`, for `ESC [` with fewer than four bytes, and for `ESC [ ;` with fewer than six |
| Vi.LongCursorForm | src/vi.c:58-71 | `ESC [ 1 ? m X`, with modifier m being 2, 5 or 6 and X a cursor letter or `~`, decodes to that cursor key or Delete; Shift unless m is 5; Ctrl when m is 5 or 6 |
| Vi.LongPageForm | src/vi.c:72-81 | `ESC [ 5/6 ? ? ~` decodes to PageUp/PageDown with the same modifier reading, and with any other last byte decodes to nothing |
| Vi.LongFormIgnoresByte3 | src/vi.c:58-81 | in the six-byte forms byte 3 (the `;`) is never examined |
| Vi.LongForms | src/vi.c:58-82 | a buffer of six or more bytes is a key exactly when it is `ESC [ 1 ? m X` with m `2`, `5` or `6` and X a cursor letter or `~`, or `ESC [ 5/6 ? ? ~`; any other, a paste included, decodes to nothing |
| Vi.ShortCsiForm | src/vi.c:82-105 | a 4- or 5-byte buffer is a key exactly for `ESC [ 1/3/4 ~`, giving Home, Delete or End without modifiers |
| Vi.Ss3Form | src/vi.c:106-115 | `ESC O X` with a cursor letter X decodes to that plain cursor key |
| Vi.ShortBufferByFirstByte | src/vi.c:106-139 | a 1- to 3-byte buffer that is not an SS3 cursor key is decoded from its first byte alone |
| Vi.SingleByte | src/vi.c:116-139 | a single byte is a key exactly when it is below 0x1E with a `ctrl_sequences` entry, or is DEL, `<` or `>`; table entries carry Ctrl except ESC, LF and CR |
| Vi.DecoderRange | src/vi.c:57-146 | every decoded key is in the set `Decodable` that `Encode` covers |
| Vi.EncodeRoundTrip | src/vi.c:57-146 | every decodable key is recovered from a byte sequence the decoder maps to it |
| Vi.Navigate | src/vi.c:169-185 | arrows and End are always forwarded; afterwards a selection is open exactly when Shift was held; the prompts are untouched; a command (ESC i) is written exactly when an open selection is closed |
| Vi.Confirm | src/vi.c:199-213 | Enter always closes the search prompt and selects the match when it was open; it is swallowed exactly when a prompt was open; it writes a command exactly when some flag was set |
| Vi.Chord | src/vi.c:215-250 | a chord is swallowed exactly for Ctrl+Q, Ctrl+S, and Ctrl+V at the search prompt, and then the flags are unchanged; the search prompt is open afterwards exactly when it was or the chord is Ctrl+F, the jump prompt exactly when it was or the chord is Ctrl+L |
| Vi.Transition | src/vi.c:148-253 | a key is swallowed only when commands are written in its place, and at most two commands are written per key |
| Vi.TransitionByBranch | src/vi.c:152-250 | the reaction to a key, grouped by the source's checks: editing keys, indent keys, cursor keys, Enter, Ctrl chords, and no change otherwise |
| Vi.ProcessInput | src/vi.c:255-287 | a decoded key reacts as `Transition` says; input that is not a key changes no flag but `selecting`, which it clears, writes the delete-selection command exactly when a selection was open, and is forwarded; a key is swallowed only when commands replace it |
| Vi.ChordCauses | src/vi.c:215-250 | among the chords, only Ctrl+F opens the search, only Ctrl+L opens the jump, only Ctrl+A/Ctrl+G open a selection, and no chord closes a prompt |
| Vi.ModeChangeCauses | src/vi.c:148-253 | each flag changes only for its causes: search opens on Ctrl+F and closes on Enter; jump opens on Ctrl+L and closes on Enter when no search is open; a selection opens on a shifted cursor key, Ctrl+A, Ctrl+G or Enter confirming a search |
| Vi.PromptsOpenOnlyOnTheirBytes | src/vi.c:255-287 | a search prompt opens only for input that starts with byte 0x06, and a jump prompt only for input that starts with 0x0C |
| Vi.SelectionEditKeys | src/vi.c:152-161 | while selecting, Backspace deletes the selection and is swallowed; Delete ends the selection and is forwarded |
| Vi.IndentKeysPassThrough | src/vi.c:163-167 | `<` and `>` change nothing and are forwarded |
| Vi.CursorKeys | src/vi.c:169-185 | shifted arrows and End select; unshifted ones end a selection with ESC i |
| Vi.ShiftHomeIsShiftLeft | src/vi.c:187-190 | Shift+Home acts as Shift+Left |
| Vi.PlainHome | src/vi.c:191-196 | Home without Shift returns to insert mode with ESC i unless a search is open |
| Vi.EnterByPriority | src/vi.c:199-213 | Enter confirms a search, else a jump, else deletes a selection, else does nothing |
| Vi.ControlChords | src/vi.c:215-250 | the reaction to each of Ctrl+A, F, G, I, L, Q, S, V, X, and no change for other letters |
| Vi.LettersNeedCtrlAlone | src/vi.c:215 | a letter key without Ctrl, or with Shift, changes nothing |
| Vi.SearchingAndJumpingCoexist | src/vi.c:218-230 | opening the jump prompt during a search, or a search during a jump, leaves both open |
| Vi.Drain | src/vi.c:298-314 | every read is followed by at least one write, so a run writes at least once per chunk |
| Vi.LiteralInputForwardedVerbatim | src/vi.c:298-314 | with no selection open, chunks that fit the buffer and are not keys reach vim unchanged and in order, and nothing else is written |
| Vi.SearchingNeedsCtrlF | src/vi.c:298-314 | no run opens the search prompt unless the Ctrl+F byte is among the bytes read |
| Vi.SplitCursorKeyDeletesSelection | src/vi.c:283-286 | a cursor key read whole ends the selection, but read as ESC then `O A` it deletes the selection, because the buffer is emptied after each read |
| Vi.SearchThenJump | src/vi.c:298-314 | Ctrl+F then Ctrl+L from the initial state leaves the search and jump prompts both open |
| Vi.ViState.constructor | src/vi.h:36-44 | `VI_STATE_INIT`: all flags clear |
| Vi.ViState.ProcessKeystroke | src/vi.c:148-253 | the flags, the writes and the returned pass-through flag are those of `Transition` |
| Vi.ViState.ProcessCursorKey | src/vi.c:169-197 | cursor keys change the flags and writes as `Transition` says, including re-entry for Shift+Home; other keys change nothing |
| Vi.ViState.ProcessEnter | src/vi.c:199-213 | Enter's checks have the effect of `Confirm` |
| Vi.ViState.ProcessChord | src/vi.c:215-250 | the chord checks have the effect of `Chord` |
| Vi.ViState.ProcessStdin | src/vi.c:255-287 | the flags and writes follow `ProcessInput` and `Execute` on the buffered bytes, and the buffer is left empty |
| Vi.ViState.DrainStdin | src/vi.c:298-314 | the flags and the writes after all reads are those of `Drain`, with bytes that did not fit read in the next round, and the buffer is empty after any read |
| Standalone.InterpretKeystroke | src/main.c:81-105 | a decoded key is a cursor key without Meta and never with both Shift and Ctrl; it comes from exactly 6 or 3 buffered bytes starting with ESC, and from 6 whenever a modifier is set |
| Standalone.AcceptedForms | src/main.c:81-105 | a buffer decodes exactly when it is six bytes ESC ? ? ? m X with m `2` or `6`, or three bytes ESC O X, with X a cursor letter; the name comes from X, Shift exactly when m is `2`, Ctrl exactly when m is `6` |
| Standalone.Encode | src/main.c:82-101 | the byte sequence the decoder maps to a key is 6 bytes long with a modifier and 3 bytes without |
| Standalone.EncodeRoundTrip | src/main.c:81-105 | every cursor key with at most one of Shift and Ctrl is recovered from a byte sequence the decoder maps to it |
| Standalone.DecoderRange | src/main.c:81-105 | every decoded key is decodable in that sense |
| Standalone.LongFormIgnoresMiddleBytes | src/main.c:82-85 | in the six-byte form only ESC, the modifier digit and the final letter are examined |
| Standalone.Motion | src/main.c:121-127 | each cursor key has a one-byte vi motion |
| Standalone.WordMotion | src/main.c:135-141 | each cursor key has a one- to three-byte Ctrl motion |
| Standalone.Transition | src/main.c:115-152 | a key is absorbed exactly when it is a shifted cursor key; after a cursor key the selection is open exactly when Shift was held, and other keys leave it as it was; every key writes or forwards something; no command is written unless the key is a cursor key that is shifted or ends a selection |
| Standalone.ShiftedCursorKey | src/main.c:128-144 | a decoded shifted key opens the selection with ESC m b v if needed, writes its motion and is absorbed |
| Standalone.UnshiftedCursorKeyEndsSelection | src/main.c:145-151 | a decoded unshifted cursor key ends the selection with ESC i and is forwarded |
| Standalone.CtrlHasNoEffect | src/main.c:81-105 | the decoder never reports Ctrl with Shift, so a decoded key with Ctrl acts as the same key without it, and the Ctrl motions are never written |
| Standalone.React | src/main.c:113-153 | only a six-byte escape sequence is ever absorbed, and it leaves the selection open; a command written alongside forwarded bytes always ends the selection |
| Standalone.Step | src/main.c:107-159 | the buffer is left empty or untouched, and always empty when it is cleared unconditionally; what stays is six bytes long |
| Standalone.KeptOnlyWhenAbsorbed | src/main.c:155-158 | as written, the buffer keeps its bytes exactly when they are a shifted cursor key that was absorbed |
| Standalone.OtherInputForwarded | src/main.c:114-158 | input that is not a cursor key is forwarded unchanged, the buffer is emptied, and an open selection stays open |
| Standalone.Run | src/main.c:161-177 | the buffer always keeps free space, so every read can take a byte, and when it is cleared unconditionally it is empty after any read |
| Standalone.PendingIsOneShiftedKey | src/main.c:161-177 | as written, after any read the buffer holds nothing or the six bytes of one absorbed Shift+cursor key |
| Standalone.LiteralInputForwardedVerbatim | src/main.c:161-177 | chunks that fit the buffer and are not cursor keys reach vim unchanged and in order, and nothing else is written |
| Standalone.ShiftedKeyIsForwardedAgain | src/main.c:155-158 | as written, the read after an absorbed shifted key is appended to its stale bytes; both go to vim as raw input, and the selection stays open |
| Standalone.ShiftLeftThenLetter | src/main.c:155-158 | Shift+Left, then `a`, sends ESC m b v, `h`, and then the Shift+Left bytes again followed by `a` |
| Standalone.NextKeyDecodedAloneWhenCleared | src/main.c:155-158 | with the buffer emptied after every call, the read after a shifted key is decoded on its own |
| Standalone.ViState.constructor | src/main.c:56-60 | `vi_state` starts with no selection |
| Standalone.ViState.ProcessKeystroke | src/main.c:114-153 | the flag, the writes and the pass-through flag are those of `Transition` |
| Standalone.ViState.ProcessStdin | src/main.c:107-159 | the flag, the writes and the remaining buffer are those of `Step` as written |
| Standalone.ViState.ReadAndProcess | src/main.c:170-175 | one read followed by `process_stdin` has the effect of `Step` on the pending bytes plus what fit, leaves free space in the buffer, and leaves the rest of the run to `Run` on what the terminal still has ready |
| Standalone.ViState.DrainStdin | src/main.c:161-177 | the flag, the writes and the remaining buffer after all reads are those of `Run` as written |

## Left out

- Terminal I/O is left out: `ioctl(FIONREAD)`, `read` and `write`. Each run
  is given the bytes the terminal has ready, as chunks, and each write is an
  entry in `written`. A `read()` is assumed to return all of the first chunk
  that fits. A short read that returns less is not modelled.
- Read and ioctl errors are left out. The early `return` on a negative
  count or -1 is not modelled.
- The `stdin_avail` countdown is modelled by the chunks still unread. Bytes
  that arrive after the `FIONREAD` snapshot are not modelled.
- Both drain loops need free space in the buffer on entry
  (`offset < BUF_SIZE`). With a full buffer `read()` would be asked for zero
  bytes and the loop would not advance. Neither source ever leaves the buffer
  full.
- `forkpty`, termios raw mode, `vi_fork`, `vi_drain`, `vi_create_vimrc`,
  and the file descriptor, pid and vimrc path fields of `ViState` are left
  out. So are the `vi_rc_string` script and the `debug` logging. They are
  process and terminal set-up, not translation.
- The signed `char` buffer is not modelled. Bytes are unsigned. In
  src/vi.c:117 a byte of 0x80 or more is negative, passes the `< 0x1e`
  test, and indexes `ctrl_sequences` out of bounds, which is undefined
  behaviour. The model instead treats such bytes as undecodable.
- The `passThrough = true` at src/vi.c:183 is not repeated in the cursor-key
  helper, because the flag is already true at that point.
- The tk toolkit under `tk/` is not part of this model.

## Findings

| source | as written | input that shows it | evidently intended | confidence | as-written member | corrected member |
|---|---|---|---|---|---|---|
| src/main.c:155-158 | the buffer is emptied only when the input is forwarded. An absorbed Shift+cursor key stays buffered, and the next read is appended to it. The combined bytes decode as no key, so the stale escape sequence is forwarded to vim in visual mode | `ESC [ 1 ; 2 D` read on its own, then `a` | empty the buffer after every call, as src/vi.c:286 does, so each read is decoded on its own | high; not executed | Standalone.ShiftedKeyIsForwardedAgain | Standalone.NextKeyDecodedAloneWhenCleared |

`Step` and `Run` take a `clearAlways` flag. With `false` they model the
code as written, which `Standalone.ViState` implements. With `true` they
model the corrected behaviour. For `Run` with `clearAlways`, the buffer is
empty after every read, and `Standalone.NextKeyDecodedAloneWhenCleared`
proves that the key after a shifted key is decoded on its own.
