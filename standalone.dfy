/** The first generation of the translator, src/main.c: it recognises only
    the cursor keys (arrows, Home, End), plain or with a modifier, and uses
    Shift with them to drive a visual-mode selection in vim.  Everything
    else it forwards untouched. */
module Standalone {
  import opened KeyInput

  // ---------------------------------------------------------------------
  // Decoding (interpret_keystroke)
  // ---------------------------------------------------------------------

  /** interpret_keystroke: ESC ? ? ? m X with m the modifier digit 2 (Shift)
      or 6 (Ctrl), and ESC O X; in both X is a cursor-key letter, and the
      buffer must hold exactly that many bytes. */
  function InterpretKeystroke(b: seq<byte>): (r: Option<Keystroke>)
    ensures r.Some? ==> IsCursorName(r.value.name) && !r.value.meta
    ensures r.Some? ==> !(r.value.shift && r.value.ctrl)
    ensures r.Some? ==> (|b| == 6 || |b| == 3) && b[0] == Esc
    ensures r.Some? && (r.value.shift || r.value.ctrl) ==> |b| == 6
  {
    if |b| == 6 && b[0] == Esc && (b[4] == 0x32 || b[4] == 0x36) && IsUdlreh(b[5]) then
      Some(Keystroke(UdlrehToName(b[5]), b[4] == 0x32, b[4] == 0x36, false))
    else if |b| == 3 && b[0] == Esc && b[1] == Ss3Intro && IsUdlreh(b[2]) then
      Some(Plain(UdlrehToName(b[2])))
    else
      None
  }

  /** The keys the decoder can report: a cursor key with at most one of
      Shift and Ctrl, never Meta. */
  predicate Decodable(k: Keystroke) {
    IsCursorName(k.name) && !k.meta && !(k.shift && k.ctrl)
  }

  /** One byte sequence the decoder maps to a decodable key: ESC O X for a
      plain key, and ESC [ 1 ; m X with m the digit the decoder reads for
      the modifier, 2 for Shift and 6 for Ctrl (xterm itself sends 5 for
      Ctrl alone). */
  function Encode(k: Keystroke): (b: seq<byte>)
    requires Decodable(k)
    ensures |b| == (if k.shift || k.ctrl then 6 else 3)
  {
    if k.shift || k.ctrl then
      [Esc, CsiIntro, 0x31, 0x3B, if k.shift then 0x32 else 0x36, UdlrehByte(k.name)]
    else
      [Esc, Ss3Intro, UdlrehByte(k.name)]
  }

  /** Every decodable key is recognised from its encoding. */
  lemma EncodeRoundTrip(k: Keystroke)
    requires Decodable(k)
    ensures InterpretKeystroke(Encode(k)) == Some(k)
  {
    UdlrehNameRoundTrip(k.name);
  }

  /** The decoder accepts exactly the two forms it tests for, and reads
      the name from the final byte and the modifier from the digit before
      it. */
  lemma AcceptedForms(b: seq<byte>)
    ensures InterpretKeystroke(b).Some? <==>
      (|b| == 6 && b[0] == Esc && (b[4] == 0x32 || b[4] == 0x36) && IsUdlreh(b[5])) ||
      (|b| == 3 && b[0] == Esc && b[1] == Ss3Intro && IsUdlreh(b[2]))
    ensures InterpretKeystroke(b).Some? ==>
      var k := InterpretKeystroke(b).value;
      && k.name == UdlrehToName(b[|b| - 1])
      && k.shift == (|b| == 6 && b[4] == 0x32)
      && k.ctrl == (|b| == 6 && b[4] == 0x36)
  {
  }

  /** Exactly the decodable keys come out of the decoder. */
  lemma DecoderRange(b: seq<byte>)
    ensures InterpretKeystroke(b).Some? ==> Decodable(InterpretKeystroke(b).value)
  {
  }

  /** In the six-byte form only the ESC, the modifier digit and the final
      letter are examined: `[`, `1` and `;` are never checked. */
  lemma LongFormIgnoresMiddleBytes(b: seq<byte>, c: seq<byte>)
    requires |b| == 6 && |c| == 6
    requires b[0] == c[0] && b[4] == c[4] && b[5] == c[5]
    ensures InterpretKeystroke(b) == InterpretKeystroke(c)
  {
  }

  // ---------------------------------------------------------------------
  // Reacting to a key (the body of process_stdin)
  // ---------------------------------------------------------------------

  /** The vi motion for a cursor key: k j h l 0 $. */
  function Motion(n: Name): (m: seq<byte>)
    requires IsCursorName(n)
    ensures |m| == 1
  {
    match n
    case Up => Ascii("k")
    case Down => Ascii("j")
    case Left => Ascii("h")
    case Right => Ascii("l")
    case Home => Ascii("0")
    case End => Ascii("$")
  }

  /** The larger motion written when Ctrl is reported together with Shift:
      paragraph for up and down alike, word back and forward, first line,
      last line. */
  function WordMotion(n: Name): (m: seq<byte>)
    requires IsCursorName(n)
    ensures 1 <= |m| <= 3
  {
    match n
    case Down => Ascii("}")
    case Up => Ascii("}")
    case Left => Ascii("b")
    case Right => Ascii("w")
    case Home => Ascii("1G0")
    case End => Ascii("G$")
  }

  /** ESC m b v: leave insert mode, set mark b, start visual mode. */
  const StartSelection: seq<byte> := Ascii("\U{1B}mbv")

  /** The selecting flag after a key, with the directive for it. */
  datatype Reaction = Reaction(selecting: bool, directive: Directive)

  /** What a decoded key does.  A shifted cursor key starts the selection
      if needed and moves; any other cursor key ends a selection and is
      forwarded; a key that is not a cursor key is only forwarded. */
  function Transition(selecting: bool, k: Keystroke): (r: Reaction)
    ensures r.directive.passThrough <==> !(IsCursorName(k.name) && k.shift)
    ensures r.selecting == if IsCursorName(k.name) then k.shift else selecting
    ensures 1 <= |r.directive.commands| + (if r.directive.passThrough then 1 else 0)
    // only a shifted cursor key, or a cursor key ending a selection, writes a command
    ensures !(IsCursorName(k.name) && (k.shift || selecting)) ==> r.directive.commands == []
  {
    if IsCursorName(k.name) && k.shift then
      var move := if k.ctrl then WordMotion(k.name) else Motion(k.name);
      Reaction(true, Directive((if selecting then [] else [StartSelection]) + [move], false))
    else if IsCursorName(k.name) && selecting then
      Reaction(false, Directive([ExitVisual], true))
    else
      Reaction(selecting, Directive([], true))
  }

  /** Shift with a cursor key extends the selection by one motion, opening
      it first when none is active; the key's bytes are absorbed. */
  lemma ShiftedCursorKey(selecting: bool, b: seq<byte>)
    requires InterpretKeystroke(b).Some? && InterpretKeystroke(b).value.shift
    ensures var k := InterpretKeystroke(b).value;
            Transition(selecting, k) ==
              Reaction(true, Directive((if selecting then [] else [StartSelection]) + [Motion(k.name)], false))
  {
  }

  /** A cursor key without Shift ends an active selection, returning to
      insert mode, and is then forwarded. */
  lemma UnshiftedCursorKeyEndsSelection(b: seq<byte>)
    requires InterpretKeystroke(b).Some? && !InterpretKeystroke(b).value.shift
    ensures Transition(true, InterpretKeystroke(b).value) == Reaction(false, Directive([ExitVisual], true))
  {
  }

  /** The decoder never reports Ctrl together with Shift, so the Ctrl
      motions are never written: a decoded key with Ctrl acts exactly as
      the same key without it. */
  lemma CtrlHasNoEffect(selecting: bool, b: seq<byte>)
    requires InterpretKeystroke(b).Some?
    ensures var k := InterpretKeystroke(b).value;
            Transition(selecting, k) == Transition(selecting, k.(ctrl := false))
  {
  }

  // ---------------------------------------------------------------------
  // Processing the buffer (process_stdin) and draining the terminal
  // ---------------------------------------------------------------------

  /** The selecting flag, the writes, and the bytes left in the buffer. */
  datatype Effect = Effect(selecting: bool, writes: seq<seq<byte>>, pending: seq<byte>)

  /** What a key, or undecodable input, does to the flag and vim. */
  function React(selecting: bool, input: seq<byte>): (r: Reaction)
    // only a six-byte escape sequence is ever absorbed, and it leaves a selection open
    ensures !r.directive.passThrough ==> |input| == 6 && input[0] == Esc && r.selecting
    // a command written alongside forwarded bytes is the one ending the selection
    ensures r.directive.passThrough && r.directive.commands != [] ==> !r.selecting
  {
    match InterpretKeystroke(input)
    case Some(k) => Transition(selecting, k)
    case None => Reaction(selecting, Directive([], true))
  }

  /** process_stdin on buffered `input`.  As written (`clearAlways` false)
      the buffer is emptied only when the input is forwarded, so an
      absorbed shifted key stays in it; with `clearAlways` the buffer is
      emptied after every call. */
  function Step(selecting: bool, input: seq<byte>, clearAlways: bool): (e: Effect)
    ensures e.pending == [] || e.pending == input
    ensures clearAlways ==> e.pending == []
    ensures |e.pending| == 0 || |e.pending| == 6
  {
    var r := React(selecting, input);
    Effect(r.selecting, Execute(r.directive, input),
      if clearAlways || r.directive.passThrough then [] else input)
  }

  /** The buffer keeps its bytes exactly when they are a shifted cursor key
      that was absorbed, and the buffer is not emptied unconditionally. */
  lemma KeptOnlyWhenAbsorbed(selecting: bool, input: seq<byte>, clearAlways: bool)
    ensures var k := InterpretKeystroke(input);
            Step(selecting, input, clearAlways).pending == input <==>
              input == [] || (!clearAlways && k.Some? && k.value.shift)
  {
    var k := InterpretKeystroke(input);
    if k.Some? {
      assert input != [];
    }
  }

  /** Input that is not a cursor key is forwarded as is, the buffer is
      emptied, and the selection, if any, stays. */
  lemma OtherInputForwarded(selecting: bool, input: seq<byte>, clearAlways: bool)
    requires InterpretKeystroke(input).None?
    ensures Step(selecting, input, clearAlways) == Effect(selecting, [input], [])
  {
  }

  /** drain_stdin over the bytes the terminal has ready, in chunks: each
      read adds as much of the first chunk as fits behind the pending bytes
      (what does not fit is read in the next round), and the buffer is
      processed after every read.  The pending bytes must leave room in the
      buffer: with a full buffer read() would be asked for nothing and the
      loop would not advance. */
  function Run(selecting: bool, pending: seq<byte>, chunks: seq<seq<byte>>, clearAlways: bool): (e: Effect)
    requires |pending| < BufSize
    ensures |e.pending| < BufSize
    ensures clearAlways && chunks != [] ==> e.pending == []
    decreases Total(chunks), |chunks|
  {
    if chunks == [] then Effect(selecting, [], pending)
    else
      var space := BufSize - |pending|;
      var input := pending + Fit(chunks[0], space);
      var s := Step(selecting, input, clearAlways);
      var rest := Run(s.selecting, s.pending, Unread(chunks, space), clearAlways);
      Effect(rest.selecting, s.writes + rest.writes, rest.pending)
  }

  /** An effect following the writes `w` already made. */
  function After(w: seq<seq<byte>>, e: Effect): Effect {
    Effect(e.selecting, w + e.writes, e.pending)
  }

  /** Rounds of the drain loop compose: after one round, the rest of the
      run continues from the state that round left. */
  lemma RunAfterStep(selecting: bool, pending: seq<byte>, chunks: seq<seq<byte>>,
                     w: seq<seq<byte>>, clearAlways: bool)
    requires |pending| < BufSize && chunks != []
    ensures var space := BufSize - |pending|;
            var s := Step(selecting, pending + Fit(chunks[0], space), clearAlways);
            After(w, Run(selecting, pending, chunks, clearAlways)) ==
              After(w + s.writes, Run(s.selecting, s.pending, Unread(chunks, space), clearAlways))
  {
    var space := BufSize - |pending|;
    var s := Step(selecting, pending + Fit(chunks[0], space), clearAlways);
    var rest := Run(s.selecting, s.pending, Unread(chunks, space), clearAlways);
    AppendAssociates(w, s.writes, rest.writes);
  }

  /** After any read, as written, the buffer holds either nothing or the
      six bytes of one absorbed Shift+cursor key. */
  lemma {:induction false} PendingIsOneShiftedKey(selecting: bool, pending: seq<byte>, chunks: seq<seq<byte>>)
    requires |pending| < BufSize && chunks != []
    ensures var e := Run(selecting, pending, chunks, false);
            var k := InterpretKeystroke(e.pending);
            e.pending == [] || (|e.pending| == 6 && k.Some? && k.value.shift)
    decreases Total(chunks), |chunks|
  {
    var space := BufSize - |pending|;
    var input := pending + Fit(chunks[0], space);
    var s := Step(selecting, input, false);
    KeptOnlyWhenAbsorbed(selecting, input, false);
    var rest := Unread(chunks, space);
    if rest != [] {
      PendingIsOneShiftedKey(s.selecting, s.pending, rest);
    }
  }

  /** Plain text reaches vim byte for byte: chunks that are not cursor
      keys are each forwarded unchanged, in order, and nothing else is
      written. */
  lemma {:induction false} LiteralInputForwardedVerbatim(selecting: bool, chunks: seq<seq<byte>>, clearAlways: bool)
    requires forall i :: 0 <= i < |chunks| ==> |chunks[i]| <= BufSize && InterpretKeystroke(chunks[i]).None?
    ensures Run(selecting, [], chunks, clearAlways) == Effect(selecting, chunks, [])
  {
    if chunks != [] {
      assert [] + Fit(chunks[0], BufSize) == chunks[0];
      OtherInputForwarded(selecting, chunks[0], clearAlways);
      LiteralInputForwardedVerbatim(selecting, chunks[1..], clearAlways);
      assert chunks == [chunks[0]] + chunks[1..];
    }
  }

  /** As written, the bytes of an absorbed shifted key stay in the buffer
      and the next read is appended to them: the combined input is no key,
      so the stale escape sequence is forwarded to vim, in visual mode,
      ahead of the new bytes, and the selection is not ended. */
  lemma ShiftedKeyIsForwardedAgain(selecting: bool, b1: seq<byte>, b2: seq<byte>)
    requires InterpretKeystroke(b1).Some? && InterpretKeystroke(b1).value.shift
    requires 0 < |b2| <= BufSize - 6
    ensures var first := Transition(selecting, InterpretKeystroke(b1).value);
            Run(selecting, [], [b1, b2], false) == Effect(true, first.directive.commands + [b1 + b2], [])
  {
    var first := Transition(selecting, InterpretKeystroke(b1).value);
    assert [] + Fit(b1, BufSize) == b1;
    var s1 := Step(selecting, b1, false);
    assert s1 == Effect(true, first.directive.commands, b1);
    assert b1 + Fit(b2, BufSize - 6) == b1 + b2;
    assert InterpretKeystroke(b1 + b2).None?;
    var s2 := Step(true, b1 + b2, false);
    assert s2 == Effect(true, [b1 + b2], []);
    assert [b1, b2][1..] == [b2];
    assert [b2][1..] == [];
    assert Run(true, [], [], false) == Effect(true, [], []);
    assert Run(true, b1, [b2], false) == Effect(true, [b1 + b2] + [], []);
  }

  /** Shift+Left (ESC [ 1 ; 2 D) read on its own, then `a`: vim receives
      the start of a selection, the motion, and then the raw Shift+Left
      bytes again followed by `a`. */
  lemma ShiftLeftThenLetter()
    ensures var shiftLeft: seq<byte> := [Esc, CsiIntro, 0x31, 0x3B, 0x32, 0x44];
            Run(false, [], [shiftLeft, Ascii("a")], false) ==
              Effect(true, [StartSelection, Motion(Left), shiftLeft + Ascii("a")], [])
  {
    var shiftLeft: seq<byte> := [Esc, CsiIntro, 0x31, 0x3B, 0x32, 0x44];
    assert InterpretKeystroke(shiftLeft) == Some(Keystroke(Left, true, false, false));
    ShiftedKeyIsForwardedAgain(false, shiftLeft, Ascii("a"));
  }

  /** Emptying the buffer after every call, as the later generation in
      src/vi.c does, makes the read after a shifted key be interpreted on
      its own. */
  lemma NextKeyDecodedAloneWhenCleared(selecting: bool, b1: seq<byte>, b2: seq<byte>)
    requires InterpretKeystroke(b1).Some? && InterpretKeystroke(b1).value.shift
    requires |b2| <= BufSize
    ensures var first := Transition(selecting, InterpretKeystroke(b1).value);
            var second := Step(true, b2, true);
            Run(selecting, [], [b1, b2], true) ==
              Effect(second.selecting, first.directive.commands + second.writes, [])
  {
    var first := Transition(selecting, InterpretKeystroke(b1).value);
    assert [] + Fit(b1, BufSize) == b1;
    assert [] + Fit(b2, BufSize) == b2;
    assert Step(selecting, b1, true) == Effect(true, first.directive.commands, []);
    var second := Step(true, b2, true);
    assert [b1, b2][1..] == [b2];
    assert [b2][1..] == [];
    assert Run(second.selecting, [], [], true) == Effect(second.selecting, [], []);
    assert Run(true, [], [b2], true) == Effect(second.selecting, second.writes + [], []);
  }

  // ---------------------------------------------------------------------
  // The translator's state (vi_state) and its procedures
  // ---------------------------------------------------------------------

  /** vi_state, with `written` standing for everything written to vim. */
  class ViState {
    var selecting: bool
    var written: seq<seq<byte>>

    constructor ()
      ensures !selecting && written == []
    {
      selecting := false;
      written := [];
    }

    /** The handling of a decoded key inside process_stdin, in the order
        of its branches; the result is the `passThrough` flag. */
    method ProcessKeystroke(k: Keystroke) returns (passThrough: bool)
      modifies this
      ensures selecting == Transition(old(selecting), k).selecting
      ensures written == old(written) + Transition(old(selecting), k).directive.commands
      ensures passThrough == Transition(old(selecting), k).directive.passThrough
    {
      passThrough := true;
      if IsCursorName(k.name) {
        var direction := Motion(k.name);
        if k.shift {
          passThrough := false;
          if !selecting {
            selecting := true;
            written := written + [StartSelection];
          }
          if k.ctrl {
            written := written + [WordMotion(k.name)];
          } else {
            written := written + [direction];
          }
        } else if selecting {
          selecting := false;
          written := written + [ExitVisual];
          passThrough := true;
        }
      }
    }

    /** process_stdin: interpret the buffered bytes, react, and forward
        them (emptying the buffer) unless the key was absorbed. */
    method ProcessStdin(rb: ReadBuf)
      requires rb.Valid()
      modifies this, rb
      ensures rb.Valid() && rb.buf == old(rb.buf)
      ensures var s := Step(old(selecting), old(rb.Pending()), false);
              selecting == s.selecting && written == old(written) + s.writes && rb.Pending() == s.pending
    {
      var passThrough := true;
      var input := rb.buf[..rb.offset];
      ghost var r := React(selecting, input);
      var k := InterpretKeystroke(input);
      if k.Some? {
        passThrough := ProcessKeystroke(k.value);
      }
      assert selecting == r.selecting && passThrough == r.directive.passThrough;
      assert written == old(written) + r.directive.commands;
      if passThrough {
        written := written + [input];
        AppendAssociates(old(written), r.directive.commands, [input]);
        rb.Clear();
      }
    }

    /** One round of the drain_stdin loop: read the first of the bytes the
        terminal has ready into the free part of the buffer, advance the
        offset, and process the buffer; `rest` is what the terminal still
        has ready afterwards. */
    method ReadAndProcess(rb: ReadBuf, avail: seq<seq<byte>>) returns (rest: seq<seq<byte>>)
      requires rb.Valid() && rb.offset < BufSize && avail != []
      modifies this, rb, rb.buf
      ensures rb.Valid() && rb.buf == old(rb.buf) && |rb.Pending()| < BufSize
      ensures rest == Unread(avail, BufSize - |old(rb.Pending())|)
      ensures var s := Step(old(selecting), old(rb.Pending()) + Fit(avail[0], BufSize - |old(rb.Pending())|), false);
              selecting == s.selecting && written == old(written) + s.writes && rb.Pending() == s.pending
      ensures After(written, Run(selecting, rb.Pending(), rest, false)) ==
                After(old(written), Run(old(selecting), old(rb.Pending()), avail, false))
    {
      var space := BufSize - rb.offset;
      RunAfterStep(selecting, rb.Pending(), avail, written, false);
      var _ := rb.Append(avail[0]);
      ProcessStdin(rb);
      rest := Unread(avail, space);
    }

    /** drain_stdin: while the terminal has bytes ready, read as many as
        the buffer has room for and process them; the bytes left over are
        what the next read returns. */
    method DrainStdin(rb: ReadBuf, chunks: seq<seq<byte>>)
      requires rb.Valid() && rb.offset < BufSize
      modifies this, rb, rb.buf
      ensures rb.Valid() && rb.buf == old(rb.buf)
      ensures Effect(selecting, written, rb.Pending()) ==
                After(old(written), Run(old(selecting), old(rb.Pending()), chunks, false))
    {
      ghost var start := Run(old(selecting), old(rb.Pending()), chunks, false);
      ghost var pending := rb.Pending();
      var avail := chunks;
      while avail != []
        invariant rb.Valid() && rb.buf == old(rb.buf)
        invariant |pending| < BufSize && rb.Pending() == pending
        invariant After(written, Run(selecting, pending, avail, false)) == After(old(written), start)
        decreases Total(avail), |avail|
      {
        avail := ReadAndProcess(rb, avail);
        pending := rb.Pending();
      }
    }
  }
}
