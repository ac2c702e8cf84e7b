/** The current generation of the translator (src/vi.c): a byte-pattern
    decoder for the keys a terminal sends, a state machine over the
    selecting / searching / jumping flags that turns key presses into vim
    command strings, and the step that runs both on the buffered input and
    then empties the buffer. */
module Vi {
  import opened KeyInput

  // ---------------------------------------------------------------------
  // Decoding
  // ---------------------------------------------------------------------

  /** ctrl_sequences: the name of each control byte below 0x1F. Slots 0x1C and
      0x1D are empty; 0x0A is "return" and 0x0D is "enter". */
  const CtrlSequences: seq<Option<Name>> := [
    Some(Backtick), Some(Letter('a')), Some(Letter('b')), Some(Letter('c')),
    Some(Letter('d')), Some(Letter('e')), Some(Letter('f')), Some(Letter('g')),
    Some(Letter('h')), Some(Letter('i')), Some(Return), Some(Letter('k')),
    Some(Letter('l')), Some(Enter), Some(Letter('n')), Some(Letter('o')),
    Some(Letter('p')), Some(Letter('q')), Some(Letter('r')), Some(Letter('s')),
    Some(Letter('t')), Some(Letter('u')), Some(Letter('v')), Some(Letter('w')),
    Some(Letter('x')), Some(Letter('y')), Some(Letter('z')), Some(Escape),
    None, None, Some(Tilde)
  ]

  /** keystroke_complete: whether the bytes buffered so far form a whole key
      sequence. Only ESC O and ESC [ prefixes can be incomplete. */
  function KeystrokeComplete(b: seq<byte>): (r: bool)
    // six bytes always complete a sequence
    ensures |b| >= 6 ==> r
    // only a short ESC O or ESC [ prefix is incomplete
    ensures !r ==> 2 <= |b| < 6 && b[0] == Esc && (b[1] == Ss3Intro || b[1] == CsiIntro)
  {
    if |b| >= 1 && b[0] == Esc && |b| >= 2 then
      if b[1] == Ss3Intro then |b| >= 3
      else if b[1] == CsiIntro then
        if |b| < 4 then false
        else if b[2] == 0x3B then |b| >= 6
        else true
      else true
    else true
  }

  /** The xterm modifier parameter of a long CSI form, as the decoder reads
      it: '5' is Ctrl alone, '6' is Ctrl+Shift, anything else is Shift. */
  function WithModifier(name: Name, m: byte): (k: Keystroke)
    ensures k.name == name && !k.meta && (k.shift || k.ctrl)
    ensures k.ctrl && !k.shift <==> m == 0x35
    ensures k.ctrl && k.shift <==> m == 0x36
  {
    Keystroke(name, m != 0x35, m == 0x36 || m == 0x35, false)
  }

  /** interpret_keystroke, on the `offset` bytes of the buffer: every branch
      of the source reads only below `offset`. */
  function InterpretKeystroke(b: seq<byte>): (r: Option<Keystroke>)
    ensures |b| == 0 ==> r.None?
    ensures r.Some? ==> !r.value.meta
    ensures r.Some? && r.value.shift ==> |b| >= 6 && b[0] == Esc && b[1] == CsiIntro
  {
    if |b| >= 6 && b[0] == Esc && b[1] == CsiIntro then
      if b[2] == 0x31 then
        // ESC [ 1 _ m L: [Ctrl +] Shift + arrow, home, end or delete
        if (b[4] == 0x32 || b[4] == 0x35 || b[4] == 0x36) && (IsUdlreh(b[5]) || b[5] == 0x7E) then
          Some(WithModifier(if b[5] == 0x7E then Delete else UdlrehToName(b[5]), b[4]))
        else None
      else if b[2] == 0x35 || b[2] == 0x36 then
        // ESC [ 5|6 _ _ ~: page up or page down
        if b[5] == 0x7E then Some(WithModifier(if b[2] == 0x35 then PageUp else PageDown, b[4]))
        else None
      else None
    else if |b| >= 4 then
      // ESC [ 1|3|4 ~: home, delete, end
      if b[0] == Esc && b[1] == CsiIntro && b[3] == 0x7E then
        if b[2] == 0x34 then Some(Plain(End))
        else if b[2] == 0x31 then Some(Plain(Home))
        else if b[2] == 0x33 then Some(Plain(Delete))
        else None
      else None
    else if |b| >= 3 && b[0] == Esc && b[1] == Ss3Intro && IsUdlreh(b[2]) then
      // ESC O L: a plain cursor key
      Some(Plain(UdlrehToName(b[2])))
    else if |b| >= 1 then
      if b[0] < 0x1E && CtrlSequences[b[0]].Some? then
        Some(Keystroke(CtrlSequences[b[0]].value, false,
                       !(b[0] == 0x1B || b[0] == 0x0A || b[0] == 0x0D), false))
      else if b[0] == 0x7F then Some(Plain(Backspace))
      else if b[0] == 0x3C || b[0] == 0x3E then Some(Plain(if b[0] == 0x3C then Less else Greater))
      else None
    else if !KeystrokeComplete(b) then
      // the source answers "decoded" here without filling in a key; an empty
      // buffer is always complete, so this branch is never taken
      assert false; None
    else None
  }

  /** Position of a name in ctrl_sequences among the slots the decoder
      consults (below 0x1E). */
  function CtrlIndex(n: Name): (r: Option<int>)
    ensures r.Some? ==> 0 <= r.value < 0x1E
  {
    match n
    case Backtick => Some(0)
    case Return => Some(0x0A)
    case Enter => Some(0x0D)
    case Escape => Some(0x1B)
    case Letter(c) =>
      if 'a' <= c <= 'z' && c != 'j' && c != 'm' then Some(c as int - 'a' as int + 1) else None
    case _ => None
  }

  /** Whether a named control byte is reported without the ctrl flag. */
  predicate IsUnchorded(n: Name) {
    n == Escape || n == Return || n == Enter
  }

  /** The key presses the decoder can report. */
  predicate Decodable(k: Keystroke) {
    && !k.meta
    && match k.name
       case Up | Down | Left | Right | End | Home | Delete => true
       case PageUp | PageDown => k.shift || k.ctrl
       case Backspace | Less | Greater => !k.shift && !k.ctrl
       case _ => CtrlIndex(k.name).Some? && !k.shift && k.ctrl == !IsUnchorded(k.name)
  }

  /** The modifier parameter a terminal sends for a chord the decoder reads
      back as that chord. */
  function ModifierByte(shift: bool, ctrl: bool): byte {
    if shift && ctrl then 0x36 else if ctrl then 0x35 else 0x32
  }

  /** One byte sequence the decoder maps to a decodable key.  It need not be
      what a terminal sends: a modified Delete is given the ESC [ 1 ; m ~
      form, which the decoder reads as Delete (the ESC [ 3 ; m ~ a terminal
      sends for it is not decoded). */
  function Encode(k: Keystroke): seq<byte>
    requires Decodable(k)
  {
    if k.name == PageUp || k.name == PageDown then
      [Esc, CsiIntro, if k.name == PageUp then 0x35 else 0x36, 0x3B, ModifierByte(k.shift, k.ctrl), 0x7E]
    else if k.name == Backspace then [0x7F]
    else if k.name == Less then [0x3C]
    else if k.name == Greater then [0x3E]
    else if k.name == Delete then
      if k.shift || k.ctrl then [Esc, CsiIntro, 0x31, 0x3B, ModifierByte(k.shift, k.ctrl), 0x7E]
      else [Esc, CsiIntro, 0x33, 0x7E]
    else if IsCursorName(k.name) then
      if k.shift || k.ctrl then [Esc, CsiIntro, 0x31, 0x3B, ModifierByte(k.shift, k.ctrl), UdlrehByte(k.name)]
      else [Esc, Ss3Intro, UdlrehByte(k.name)]
    else [CtrlIndex(k.name).value as byte]
  }

  /** ctrl_sequences and CtrlIndex agree on every slot the decoder consults. */
  lemma CtrlTableIndex(i: int)
    requires 0 <= i < 0x1E && CtrlSequences[i].Some?
    ensures CtrlIndex(CtrlSequences[i].value) == Some(i)
  {
    var n := CtrlSequences[i].value;
    if n.Letter? {
      assert 1 <= i <= 26 && i != 0x0A && i != 0x0D && n.c as int == 'a' as int + i - 1;
    }
  }

  /** Every name CtrlIndex places is in ctrl_sequences at that place. */
  lemma CtrlIndexInTable(n: Name)
    requires CtrlIndex(n).Some?
    ensures 0 <= CtrlIndex(n).value < 0x1E && CtrlSequences[CtrlIndex(n).value] == Some(n)
  {
  }

  /** keystroke_complete answers "incomplete" in exactly three cases: ESC O
      with 2 bytes, ESC [ with 2 or 3 bytes, ESC [ ; with 4 or 5 bytes. An
      empty buffer and a lone ESC are complete. */
  lemma KeystrokeCompleteCases(b: seq<byte>)
    ensures !KeystrokeComplete(b) <==>
      || (|b| == 2 && b[0] == Esc && b[1] == Ss3Intro)
      || (2 <= |b| < 4 && b[0] == Esc && b[1] == CsiIntro)
      || (4 <= |b| < 6 && b[0] == Esc && b[1] == CsiIntro && b[2] == 0x3B)
  {
  }

  /** Modified cursor, home, end and delete keys: `ESC [ 1 _ m L` with m one
      of '2', '5', '6'; shift unless m is '5', ctrl when m is '5' or '6'. */
  lemma LongCursorForm(b: seq<byte>)
    requires |b| >= 6 && b[0] == Esc && b[1] == CsiIntro && b[2] == 0x31
    requires b[4] == 0x32 || b[4] == 0x35 || b[4] == 0x36
    requires IsUdlreh(b[5]) || b[5] == 0x7E
    ensures InterpretKeystroke(b) == Some(Keystroke(
      if b[5] == 0x7E then Delete else UdlrehToName(b[5]),
      b[4] != 0x35, b[4] == 0x35 || b[4] == 0x36, false))
  {
  }

  /** Page up and page down: `ESC [ 5|6 _ m ~`, under the same reading of m,
      whatever m is. */
  lemma LongPageForm(b: seq<byte>)
    requires |b| >= 6 && b[0] == Esc && b[1] == CsiIntro && (b[2] == 0x35 || b[2] == 0x36)
    ensures InterpretKeystroke(b) ==
      if b[5] == 0x7E then
        Some(Keystroke(if b[2] == 0x35 then PageUp else PageDown, b[4] != 0x35, b[4] == 0x35 || b[4] == 0x36, false))
      else None
  {
  }

  /** A buffer of 6 or more bytes starting with ESC [ is decoded from bytes
      0, 1, 2, 4 and 5 alone: byte 3 and anything after byte 5 are never read. */
  lemma LongFormIgnoresByte3(b: seq<byte>, c: seq<byte>)
    requires |b| >= 6 && |c| >= 6 && b[0] == Esc && b[1] == CsiIntro
    requires c[..3] == b[..3] && c[4] == b[4] && c[5] == b[5]
    ensures InterpretKeystroke(c) == InterpretKeystroke(b)
  {
    assert c[0] == b[0] && c[1] == b[1] && c[2] == b[2];
  }

  /** A buffer of 6 or more bytes is a key exactly in the two long forms
      above; anything else that long, a paste included, decodes to nothing. */
  lemma LongForms(b: seq<byte>)
    requires |b| >= 6
    ensures InterpretKeystroke(b).Some? <==>
      b[0] == Esc && b[1] == CsiIntro &&
      ((b[2] == 0x31 && (b[4] == 0x32 || b[4] == 0x35 || b[4] == 0x36) && (IsUdlreh(b[5]) || b[5] == 0x7E)) ||
       ((b[2] == 0x35 || b[2] == 0x36) && b[5] == 0x7E))
  {
  }

  /** The unmodified 4- and 5-byte forms `ESC [ 1|3|4 ~` are home, delete and
      end; no other buffer of that length is decoded. */
  lemma ShortCsiForm(b: seq<byte>)
    requires 4 <= |b| < 6
    ensures InterpretKeystroke(b).Some? <==>
      b[0] == Esc && b[1] == CsiIntro && b[3] == 0x7E && (b[2] == 0x31 || b[2] == 0x33 || b[2] == 0x34)
    ensures InterpretKeystroke(b).Some? ==>
      InterpretKeystroke(b) == Some(Plain(if b[2] == 0x31 then Home else if b[2] == 0x33 then Delete else End))
  {
  }

  /** An exactly-3-byte `ESC O L` is an unmodified cursor key. */
  lemma Ss3Form(b: seq<byte>)
    requires |b| == 3 && b[0] == Esc && b[1] == Ss3Intro && IsUdlreh(b[2])
    ensures InterpretKeystroke(b) == Some(Plain(UdlrehToName(b[2])))
  {
  }

  /** Any other buffer of 1 to 3 bytes is classified by its first byte alone. */
  lemma ShortBufferByFirstByte(b: seq<byte>)
    requires 1 <= |b| <= 3
    requires !(|b| == 3 && b[0] == Esc && b[1] == Ss3Intro && IsUdlreh(b[2]))
    ensures InterpretKeystroke(b) == InterpretKeystroke(b[..1])
  {
  }

  /** Single bytes: control bytes below 0x1E with a table entry take that
      name, with ctrl held except for ESC, LF and CR; 0x7F is backspace; `<`
      and `>` are themselves; nothing else, in particular no byte of 0x80 or
      above, is decoded. */
  lemma SingleByte(x: byte)
    ensures InterpretKeystroke([x]).Some? <==>
      (x < 0x1E && x != 0x1C && x != 0x1D) || x == 0x7F || x == 0x3C || x == 0x3E
    ensures x < 0x1E && CtrlSequences[x].Some? ==>
      InterpretKeystroke([x]) == Some(Keystroke(CtrlSequences[x].value, false, x != 0x1B && x != 0x0A && x != 0x0D, false))
    ensures x == 0x7F ==> InterpretKeystroke([x]) == Some(Plain(Backspace))
    ensures x == 0x3C ==> InterpretKeystroke([x]) == Some(Plain(Less))
    ensures x == 0x3E ==> InterpretKeystroke([x]) == Some(Plain(Greater))
  {
  }

  /** Everything the decoder reports is a decodable key press. */
  lemma DecoderRange(b: seq<byte>)
    ensures InterpretKeystroke(b).Some? ==> Decodable(InterpretKeystroke(b).value)
  {
    if InterpretKeystroke(b).Some? && |b| < 4 && b[0] < 0x1E && CtrlSequences[b[0]].Some? {
      CtrlTableIndex(b[0] as int);
    }
  }

  /** Every decodable key press has a byte sequence that decodes to it. */
  lemma EncodeRoundTrip(k: Keystroke)
    requires Decodable(k)
    ensures InterpretKeystroke(Encode(k)) == Some(k)
  {
    var b := Encode(k);
    if k.name == PageUp || k.name == PageDown {
      assert WithModifier(k.name, ModifierByte(k.shift, k.ctrl)) == k;
      LongPageForm(b);
    } else if k.name == Delete || IsCursorName(k.name) {
      if IsCursorName(k.name) {
        UdlrehNameRoundTrip(k.name);
      }
      if k.shift || k.ctrl {
        LongCursorForm(b);
      } else if IsCursorName(k.name) {
        Ss3Form(b);
      } else {
        ShortCsiForm(b);
      }
    } else if k.name == Backspace || k.name == Less || k.name == Greater {
      SingleByte(b[0]);
    } else {
      CtrlIndexInTable(k.name);
      SingleByte(b[0]);
    }
  }


  // ---------------------------------------------------------------------
  // The mode state machine
  // ---------------------------------------------------------------------

  /** `"_di`: delete the selection into the black-hole register and insert. */
  const DeleteSelection: seq<byte> := Ascii("\"_di")
  /** CR m b g n: confirm the search and select the match. */
  const ConfirmSearch: seq<byte> := Ascii("\rmbgn")
  /** CR i: confirm the line jump and return to insert mode. */
  const ConfirmJump: seq<byte> := Ascii("\ri")
  /** ESC :q CR: quit. */
  const Quit: seq<byte> := Ascii("\U{1B}:q\r")
  /** ESC :w CR, then the vim-side cursor fix-up, then insert mode. */
  const Save: seq<byte> := Ascii("\U{1B}:w\r:call NMaybeMoveForward()\ri")
  /** Ctrl+R: insert a register (at the search prompt). */
  const InsertRegister: seq<byte> := Ascii("\U{12}")
  /** `0`: the yank register. */
  const YankRegister: seq<byte> := Ascii("0")

  /** The three flags of ViState that the translator updates. */
  datatype Mode = Mode(selecting: bool, searching: bool, jumping: bool)

  /** The state a session starts in (VI_STATE_INIT). */
  const InitialMode := Mode(false, false, false)

  /** The new mode together with the directive. */
  datatype Reaction = Reaction(mode: Mode, directive: Directive)

  /** Nothing changes and the key is forwarded. */
  function Unchanged(f: Mode): Reaction {
    Reaction(f, Directive([], true))
  }

  /** Whether k is the chord Ctrl+c without Shift. */
  predicate IsChord(k: Keystroke, c: char) {
    k.name == Letter(c) && k.ctrl && !k.shift
  }

  /** Up, down, left, right and end: Shift opens (or keeps) a selection;
      without Shift an open selection is closed back to insert mode. The key
      is forwarded either way. */
  function Navigate(f: Mode, shift: bool): (r: Reaction)
    ensures r.directive.passThrough && r.mode.selecting == shift
    ensures r.mode.searching == f.searching && r.mode.jumping == f.jumping
    // the only command is ESC i, closing a selection
    ensures r.directive.commands == if !shift && f.selecting then [ExitVisual] else []
  {
    if shift then Reaction(f.(selecting := true), Directive([], true))
    else if f.selecting then Reaction(f.(selecting := false), Directive([ExitVisual], true))
    else Unchanged(f)
  }

  /** Enter: confirm an open search (selecting the match), else confirm a
      line jump, else delete an open selection. */
  function Confirm(f: Mode): (r: Reaction)
    ensures !r.mode.searching && (f.searching ==> r.mode.selecting)
    // Enter is swallowed exactly when it confirms a prompt
    ensures !r.directive.passThrough <==> f.searching || f.jumping
    ensures r.directive.commands == [] <==> !(f.searching || f.jumping || f.selecting)
  {
    if f.searching then
      Reaction(f.(searching := false, selecting := true), Directive([ConfirmSearch], false))
    else if f.jumping then Reaction(f.(jumping := false), Directive([ConfirmJump], false))
    else if f.selecting then Reaction(f.(selecting := false), Directive([DeleteSelection], true))
    else Unchanged(f)
  }

  /** The Ctrl chords (Ctrl held, Shift not). */
  function Chord(f: Mode, c: char): (r: Reaction)
    // only save, quit and a paste into the search prompt are swallowed
    ensures !r.directive.passThrough <==> c == 'q' || c == 's' || (c == 'v' && f.searching)
    ensures !r.directive.passThrough ==> r.mode == f
    // only Ctrl+F and Ctrl+L open prompts, and no chord closes one
    ensures r.mode.searching == (f.searching || c == 'f')
    ensures r.mode.jumping == (f.jumping || c == 'l')
  {
    match c
    case 'a' => Reaction(f.(selecting := true), Directive([], true))
    case 'g' => Reaction(f.(selecting := true), Directive([], true))
    case 'f' => Reaction(f.(selecting := false, searching := true), Directive([], true))
    case 'i' =>
      if f.selecting then Reaction(f.(selecting := false), Directive([DeleteSelection], true))
      else Unchanged(f)
    case 'l' => Reaction(f.(jumping := true), Directive([], true))
    case 'q' => Reaction(f, Directive([Quit], false))
    case 's' => Reaction(f, Directive([Save], false))
    case 'v' =>
      if f.searching then Reaction(f, Directive([InsertRegister, YankRegister], false))
      else Reaction(f.(selecting := false), Directive([], true))
    case 'x' => Reaction(f.(selecting := false), Directive([], true))
    case _ => Unchanged(f)
  }

  /** vi_process_keystroke, stated as one dispatch on the key's name. */
  function Transition(f: Mode, k: Keystroke): (r: Reaction)
    // a key is only ever swallowed when commands are written in its place
    ensures !r.directive.passThrough ==> |r.directive.commands| > 0
    ensures |r.directive.commands| <= 2
  {
    match k.name
    case Backspace =>
      if !k.shift && !k.ctrl && f.selecting then
        Reaction(f.(selecting := false), Directive([DeleteSelection], false))
      else Unchanged(f)
    case Delete =>
      if !k.shift && !k.ctrl && f.selecting then Reaction(f.(selecting := false), Directive([], true))
      else Unchanged(f)
    case Up => Navigate(f, k.shift)
    case Down => Navigate(f, k.shift)
    case Left => Navigate(f, k.shift)
    case Right => Navigate(f, k.shift)
    case End => Navigate(f, k.shift)
    case Home =>
      if k.shift then Navigate(f, true)
      else if f.searching then Unchanged(f)
      else Reaction(f.(selecting := false), Directive([ExitVisual], true))
    case Enter => Confirm(f)
    case Letter(c) => if k.ctrl && !k.shift then Chord(f, c) else Unchanged(f)
    case _ => Unchanged(f)
  }

  /** Transition grouped by the checks of vi_process_keystroke, in their
      order. */
  lemma TransitionByBranch(f: Mode, k: Keystroke)
    ensures (k.name == Backspace || k.name == Delete) && !k.shift && !k.ctrl && f.selecting ==>
              Transition(f, k) == Reaction(f.(selecting := false),
                Directive(if k.name == Backspace then [DeleteSelection] else [], k.name == Delete))
    ensures k.name == Greater || k.name == Less ==> Transition(f, k) == Unchanged(f)
    ensures IsCursorName(k.name) ==> Transition(f, k).directive.passThrough
    ensures k.name == Enter ==> Transition(f, k) == Confirm(f)
    ensures k.ctrl && !k.shift && k.name.Letter? ==> Transition(f, k) == Chord(f, k.name.c)
    ensures !IsCursorName(k.name) && k.name != Enter && !(k.ctrl && !k.shift && k.name.Letter?) &&
            !((k.name == Backspace || k.name == Delete) && !k.shift && !k.ctrl && f.selecting) ==>
              Transition(f, k) == Unchanged(f)
  {
  }

  /** vi_process_stdin on the buffered bytes: decode, run the state machine,
      and for input that is not a recognised key first delete an open
      selection, then forward it. */
  function ProcessInput(f: Mode, input: seq<byte>): (r: Reaction)
    ensures !r.directive.passThrough ==> |r.directive.commands| > 0
    // raw input that is not a key never leaves a selection open
    ensures InterpretKeystroke(input).None? ==> r.directive.passThrough && !r.mode.selecting
    // a decoded key is handled by the state machine alone
    ensures InterpretKeystroke(input).Some? ==> r == Transition(f, InterpretKeystroke(input).value)
    // other input changes no flag but `selecting`, and deletes exactly an open selection
    ensures InterpretKeystroke(input).None? ==>
      r.mode == f.(selecting := false) && r.directive.commands == (if f.selecting then [DeleteSelection] else [])
  {
    match InterpretKeystroke(input)
    case Some(k) => Transition(f, k)
    case None =>
      if f.selecting then Reaction(f.(selecting := false), Directive([DeleteSelection], true))
      else Unchanged(f)
  }

  /** No chord leaves a prompt; only Ctrl+F opens the search prompt, only
      Ctrl+L the jump prompt, and only Ctrl+A and Ctrl+G a selection. */
  lemma ChordCauses(f: Mode, c: char)
    ensures var r := Chord(f, c);
            && (f.searching ==> r.mode.searching) && (r.mode.searching && !f.searching ==> c == 'f')
            && (f.jumping ==> r.mode.jumping) && (r.mode.jumping && !f.jumping ==> c == 'l')
            && (r.mode.selecting && !f.selecting ==> c == 'a' || c == 'g')
  {
  }

  /** Every change of a mode flag has one of a few causes. Searching is
      entered only by Ctrl+F and left only by Enter; jumping is entered only
      by Ctrl+L and left only by Enter outside a search; a selection is opened
      only by Shift with a cursor key, Ctrl+A, Ctrl+G, or by confirming a
      search. */
  lemma ModeChangeCauses(f: Mode, k: Keystroke)
    ensures var r := Transition(f, k);
            && (r.mode.searching && !f.searching ==> IsChord(k, 'f'))
            && (f.searching && !r.mode.searching ==> k.name == Enter)
            && (r.mode.jumping && !f.jumping ==> IsChord(k, 'l'))
            && (f.jumping && !r.mode.jumping ==> k.name == Enter && !f.searching)
            && (r.mode.selecting && !f.selecting ==>
                  || (k.shift && IsCursorName(k.name))
                  || IsChord(k, 'a') || IsChord(k, 'g')
                  || (k.name == Enter && f.searching))
  {
    match k.name
    case Letter(c) =>
      if k.ctrl && !k.shift {
        assert Transition(f, k) == Chord(f, c);
        ChordCauses(f, c);
      } else {
        assert Transition(f, k) == Unchanged(f);
      }
    case Enter => assert Transition(f, k) == Confirm(f);
    case Up => assert Transition(f, k) == Navigate(f, k.shift);
    case Down => assert Transition(f, k) == Navigate(f, k.shift);
    case Left => assert Transition(f, k) == Navigate(f, k.shift);
    case Right => assert Transition(f, k) == Navigate(f, k.shift);
    case End => assert Transition(f, k) == Navigate(f, k.shift);
    case Home =>
    case Backspace =>
    case Delete =>
    case _ => assert Transition(f, k) == Unchanged(f);
  }

  /** At the level of raw input, the search prompt is opened only by a
      buffer that starts with the Ctrl+F byte 0x06, and the jump prompt only
      by one that starts with the Ctrl+L byte 0x0C, in 1 to 3 bytes. */
  lemma PromptsOpenOnlyOnTheirBytes(f: Mode, input: seq<byte>)
    ensures var r := ProcessInput(f, input);
            && (r.mode.searching && !f.searching ==> 1 <= |input| <= 3 && input[0] == 0x06)
            && (r.mode.jumping && !f.jumping ==> 1 <= |input| <= 3 && input[0] == 0x0C)
  {
    match InterpretKeystroke(input)
    case Some(k) =>
      ModeChangeCauses(f, k);
      if k.name.Letter? && k.ctrl && !k.shift {
        assert 1 <= |input| <= 3 && input[0] < 0x1E && CtrlSequences[input[0]] == Some(k.name);
      }
    case None =>
  }

  /** Backspace and Delete, unmodified, while a selection is open: the
      selection is closed; Backspace deletes it and is swallowed, Delete is
      forwarded. */
  lemma SelectionEditKeys(f: Mode, k: Keystroke)
    requires f.selecting && !k.shift && !k.ctrl
    ensures k.name == Backspace ==>
      Transition(f, k) == Reaction(f.(selecting := false), Directive([DeleteSelection], false))
    ensures k.name == Delete ==>
      Transition(f, k) == Reaction(f.(selecting := false), Directive([], true))
  {
  }

  /** `<` and `>` are always forwarded and change nothing; while selecting
      they are vim's own indent commands on the selection. */
  lemma IndentKeysPassThrough(f: Mode, k: Keystroke)
    requires k.name == Less || k.name == Greater
    ensures Transition(f, k) == Unchanged(f)
  {
  }

  /** Up, down, left, right and end: with Shift they open the selection
      silently; without Shift they close an open one with ESC i; the key is
      always forwarded. */
  lemma CursorKeys(f: Mode, k: Keystroke)
    requires k.name in {Up, Down, Left, Right, End}
    ensures k.shift ==> Transition(f, k) == Reaction(f.(selecting := true), Directive([], true))
    ensures !k.shift && f.selecting ==>
      Transition(f, k) == Reaction(f.(selecting := false), Directive([ExitVisual], true))
    ensures !k.shift && !f.selecting ==> Transition(f, k) == Unchanged(f)
  {
  }

  /** Shift+Home is handled as Shift+Left, whatever else is held. */
  lemma ShiftHomeIsShiftLeft(f: Mode, k: Keystroke)
    requires k.name == Home && k.shift
    ensures Transition(f, k) == Transition(f, Keystroke(Left, true, false, false))
  {
  }

  /** Home without Shift writes ESC i and clears the selection even when
      nothing was selected, unless a search prompt is open, in which case
      nothing happens. */
  lemma PlainHome(f: Mode, k: Keystroke)
    requires k.name == Home && !k.shift
    ensures !f.searching ==> Transition(f, k) == Reaction(f.(selecting := false), Directive([ExitVisual], true))
    ensures f.searching ==> Transition(f, k) == Unchanged(f)
  {
  }

  /** Enter confirms, by priority, an open search (selecting the match), a
      line jump, or deletes an open selection; only the first two swallow it. */
  lemma EnterByPriority(f: Mode, k: Keystroke)
    requires k.name == Enter
    ensures f.searching ==>
      Transition(f, k) == Reaction(f.(searching := false, selecting := true), Directive([ConfirmSearch], false))
    ensures !f.searching && f.jumping ==>
      Transition(f, k) == Reaction(f.(jumping := false), Directive([ConfirmJump], false))
    ensures !f.searching && !f.jumping && f.selecting ==>
      Transition(f, k) == Reaction(f.(selecting := false), Directive([DeleteSelection], true))
    ensures !f.searching && !f.jumping && !f.selecting ==> Transition(f, k) == Unchanged(f)
  {
  }

  /** The Ctrl chords. Only q, s and v-during-search swallow the key. */
  lemma ControlChords(f: Mode, k: Keystroke)
    requires k.ctrl && !k.shift
    ensures k.name == Letter('a') || k.name == Letter('g') ==>
      Transition(f, k) == Reaction(f.(selecting := true), Directive([], true))
    ensures k.name == Letter('f') ==>
      Transition(f, k) == Reaction(f.(selecting := false, searching := true), Directive([], true))
    ensures k.name == Letter('l') ==>
      Transition(f, k) == Reaction(f.(jumping := true), Directive([], true))
    ensures k.name == Letter('i') ==>
      Transition(f, k) == if f.selecting then Reaction(f.(selecting := false), Directive([DeleteSelection], true))
                          else Unchanged(f)
    ensures k.name == Letter('x') ==>
      Transition(f, k) == Reaction(f.(selecting := false), Directive([], true))
    ensures k.name == Letter('q') ==> Transition(f, k) == Reaction(f, Directive([Quit], false))
    ensures k.name == Letter('s') ==> Transition(f, k) == Reaction(f, Directive([Save], false))
    ensures k.name == Letter('v') ==>
      Transition(f, k) == if f.searching then Reaction(f, Directive([InsertRegister, YankRegister], false))
                          else Reaction(f.(selecting := false), Directive([], true))
    ensures (k.name.Letter? && k.name.c !in {'a', 'f', 'g', 'i', 'l', 'q', 's', 'v', 'x'}) ==>
      Transition(f, k) == Unchanged(f)
  {
    if k.name.Letter? {
      assert Transition(f, k) == Chord(f, k.name.c);
    }
  }

  /** A letter without Ctrl, or with Shift as well, is only forwarded. */
  lemma LettersNeedCtrlAlone(f: Mode, k: Keystroke)
    requires k.name.Letter? && !(k.ctrl && !k.shift)
    ensures Transition(f, k) == Unchanged(f)
  {
  }

  /** Searching and jumping are not exclusive: Ctrl+L during a search, or
      Ctrl+F during a jump, leaves both set. */
  lemma SearchingAndJumpingCoexist(f: Mode)
    ensures var r := Transition(f.(searching := true), Keystroke(Letter('l'), false, true, false));
            r.mode.searching && r.mode.jumping
    ensures var r := Transition(f.(jumping := true), Keystroke(Letter('f'), false, true, false));
            r.mode.searching && r.mode.jumping
  {
  }

  // ---------------------------------------------------------------------
  // Draining the terminal
  // ---------------------------------------------------------------------

  /** The mode after a run and everything written to vim during it. */
  datatype Trace = Trace(mode: Mode, writes: seq<seq<byte>>)

  /** The loop of vi_drain_stdin over the bytes the terminal has ready, in
      chunks: each read takes as much of the first chunk as fits in the
      buffer (what does not fit is read in the next round), the buffer is
      processed, and processing always empties it. */
  function Drain(f: Mode, pending: seq<byte>, chunks: seq<seq<byte>>): (t: Trace)
    requires |pending| < BufSize
    // every round writes something: no read is silently absorbed
    ensures |t.writes| >= |chunks|
    decreases Total(chunks), |chunks|
  {
    if chunks == [] then Trace(f, [])
    else
      var space := BufSize - |pending|;
      var input := pending + Fit(chunks[0], space);
      var r := ProcessInput(f, input);
      var rest := Drain(r.mode, [], Unread(chunks, space));
      Trace(rest.mode, Execute(r.directive, input) + rest.writes)
  }

  /** Plain text reaches vim byte for byte: while nothing is selected, chunks
      that fit the buffer and are not recognised keys are each forwarded
      unchanged, in order, and no command is written. */
  lemma {:induction false} LiteralInputForwardedVerbatim(f: Mode, chunks: seq<seq<byte>>)
    requires !f.selecting
    requires forall i :: 0 <= i < |chunks| ==> |chunks[i]| <= BufSize && InterpretKeystroke(chunks[i]).None?
    ensures Drain(f, [], chunks) == Trace(f, chunks)
    decreases |chunks|
  {
    if chunks != [] {
      assert Fit(chunks[0], BufSize) == chunks[0];
      assert [] + chunks[0] == chunks[0];
      LiteralInputForwardedVerbatim(f, chunks[1..]);
      assert chunks == [chunks[0]] + chunks[1..];
    }
  }

  /** No run opens the search prompt unless the Ctrl+F byte arrives. */
  lemma {:induction false} SearchingNeedsCtrlF(f: Mode, chunks: seq<seq<byte>>)
    requires !f.searching
    requires forall i, j :: 0 <= i < |chunks| && 0 <= j < |chunks[i]| ==> chunks[i][j] != 0x06
    ensures !Drain(f, [], chunks).mode.searching
    decreases Total(chunks), |chunks|
  {
    if chunks != [] {
      var input := [] + Fit(chunks[0], BufSize);
      assert input == [] || input[0] == chunks[0][0];
      PromptsOpenOnlyOnTheirBytes(f, input);
      var rest := Unread(chunks, BufSize);
      if |chunks[0]| > BufSize {
        assert rest == [chunks[0][BufSize..]] + chunks[1..];
        assert forall i :: 1 <= i < |rest| ==> rest[i] == chunks[i];
        assert forall j :: 0 <= j < |rest[0]| ==> rest[0][j] == chunks[0][BufSize + j];
      }
      SearchingNeedsCtrlF(ProcessInput(f, input).mode, rest);
    }
  }

  /** The buffer is emptied even when an escape sequence arrives split: a
      cursor key read as ESC and then O A, while selecting, deletes the
      selection, where the same key read whole would only close it. */
  lemma SplitCursorKeyDeletesSelection()
    ensures Drain(Mode(true, false, false), [], [[Esc, Ss3Intro, 0x41]]) ==
      Trace(Mode(false, false, false), [ExitVisual, [Esc, Ss3Intro, 0x41]])
    ensures Drain(Mode(true, false, false), [], [[Esc], [Ss3Intro, 0x41]]) ==
      Trace(Mode(false, false, false), [[Esc], DeleteSelection, [Ss3Intro, 0x41]])
  {
    var selecting, plain := Mode(true, false, false), Mode(false, false, false);
    var whole: seq<byte> := [Esc, Ss3Intro, 0x41];
    assert Drain(selecting, [], [whole]) == Trace(plain, [ExitVisual, whole]) by {
      assert [] + Fit(whole, BufSize) == whole;
      assert InterpretKeystroke(whole) == Some(Plain(Up));
      assert ProcessInput(selecting, whole) == Reaction(plain, Directive([ExitVisual], true));
      assert Unread([whole], BufSize) == [];
      assert Drain(plain, [], []) == Trace(plain, []);
    }
    var tail: seq<byte> := [Ss3Intro, 0x41];
    assert Drain(selecting, [], [[Esc], tail]) == Trace(plain, [[Esc], DeleteSelection, tail]) by {
      assert [] + Fit([Esc], BufSize) == [Esc];
      assert InterpretKeystroke([Esc]) == Some(Plain(Escape));
      assert ProcessInput(selecting, [Esc]) == Reaction(selecting, Directive([], true));
      assert Unread([[Esc], tail], BufSize) == [tail];
      assert Drain(selecting, [], [tail]) == Trace(plain, [DeleteSelection, tail]) by {
        assert [] + Fit(tail, BufSize) == tail;
        assert InterpretKeystroke(tail) == None;
        assert Unread([tail], BufSize) == [];
        assert Drain(plain, [], []) == Trace(plain, []);
      }
    }
  }

  /** From the initial state, Ctrl+F then Ctrl+L leaves both prompts open. */
  lemma SearchThenJump()
    ensures Drain(InitialMode, [], [[0x06], [0x0C]]).mode == Mode(false, true, true)
  {
    var ctrlF: seq<byte>, ctrlL: seq<byte> := [0x06], [0x0C];
    var searching, both := Mode(false, true, false), Mode(false, true, true);
    assert Drain(searching, [], [ctrlL]).mode == both by {
      assert InterpretKeystroke([0x0C]) == Some(Keystroke(Letter('l'), false, true, false));
      ControlChords(searching, Keystroke(Letter('l'), false, true, false));
      assert [] + Fit(ctrlL, BufSize) == ctrlL;
      assert ProcessInput(searching, ctrlL).mode == both;
      assert Unread([ctrlL], BufSize) == [];
    }
    assert Drain(InitialMode, [], [ctrlF, ctrlL]).mode == Drain(searching, [], [ctrlL]).mode by {
      assert InterpretKeystroke([0x06]) == Some(Keystroke(Letter('f'), false, true, false));
      ControlChords(InitialMode, Keystroke(Letter('f'), false, true, false));
      assert [] + Fit(ctrlF, BufSize) == ctrlF;
      assert ProcessInput(InitialMode, ctrlF).mode == searching;
      assert Unread([ctrlF, ctrlL], BufSize) == [ctrlL];
    }
  }

  // ---------------------------------------------------------------------
  // The translator's state, updated in place
  // ---------------------------------------------------------------------

  /** ViState: the mode flags, and everything written to vim's descriptor
      (`vi->fd`), one entry per write, in order. */
  class ViState {
    var selecting: bool
    var searching: bool
    var jumping: bool
    var written: seq<seq<byte>>

    function CurrentMode(): Mode
      reads this
    {
      Mode(selecting, searching, jumping)
    }

    /** VI_STATE_INIT: all flags clear, nothing written yet. */
    constructor ()
      ensures CurrentMode() == InitialMode && written == []
    {
      selecting, searching, jumping := false, false, false;
      written := [];
    }

    /** vi_process_keystroke: the source's sequence of checks, each of which
        may update the flags and write a command. */
    method ProcessKeystroke(k: Keystroke) returns (passThrough: bool)
      modifies this
      decreases if k.name == Home then 1 else 0, 1
      ensures CurrentMode() == Transition(old(CurrentMode()), k).mode
      ensures written == old(written) + Transition(old(CurrentMode()), k).directive.commands
      ensures passThrough == Transition(old(CurrentMode()), k).directive.passThrough
    {
      passThrough := true;
      TransitionByBranch(CurrentMode(), k);

      if (k.name == Backspace || k.name == Delete) && !k.shift && !k.ctrl && selecting {
        selecting := false;
        if k.name == Backspace {
          written := written + [DeleteSelection];
          return false;
        }
        return true;
      }

      if k.name == Greater || k.name == Less {
        if selecting {
          return true;
        }
      }

      ProcessCursorKey(k);

      if k.name == Enter {
        passThrough := ProcessEnter();
      }

      if k.ctrl && !k.shift && k.name.Letter? {
        passThrough := ProcessChord(k.name.c);
      }
    }

    /** The cursor-key checks of vi_process_keystroke: the arrows and End
        start or end the selection, Home ends it unless a search is open,
        and Shift+Home re-enters with Shift+Left.  Other keys change
        nothing. */
    method ProcessCursorKey(k: Keystroke)
      modifies this
      decreases if k.name == Home then 1 else 0, 0
      ensures IsCursorName(k.name) ==> CurrentMode() == Transition(old(CurrentMode()), k).mode
      ensures IsCursorName(k.name) ==> written == old(written) + Transition(old(CurrentMode()), k).directive.commands
      ensures !IsCursorName(k.name) ==> CurrentMode() == old(CurrentMode()) && written == old(written)
    {
      if k.name == Up || k.name == Down || k.name == Left || k.name == Right || k.name == End {
        if k.shift {
          if !selecting {
            selecting := true;
          }
        } else if selecting {
          selecting := false;
          written := written + [ExitVisual];
        }
      }

      if k.name == Home {
        if k.shift {
          var shiftLeft := Keystroke(Left, true, false, false);
          var _ := ProcessKeystroke(shiftLeft);
        } else if !searching {
          selecting := false;
          written := written + [ExitVisual];
        }
      }
    }

    /** The Enter checks of vi_process_keystroke, by priority. */
    method ProcessEnter() returns (passThrough: bool)
      modifies this
      ensures CurrentMode() == Confirm(old(CurrentMode())).mode
      ensures written == old(written) + Confirm(old(CurrentMode())).directive.commands
      ensures passThrough == Confirm(old(CurrentMode())).directive.passThrough
    {
      passThrough := true;
      if searching {
        passThrough := false;
        searching := false;
        selecting := true;
        written := written + [ConfirmSearch];
      } else if jumping {
        passThrough := false;
        jumping := false;
        written := written + [ConfirmJump];
      } else if selecting {
        selecting := false;
        written := written + [DeleteSelection];
      }
    }

    /** The Ctrl-chord checks at the end of vi_process_keystroke, for a key
        named by a letter with Ctrl held and Shift not. */
    method ProcessChord(c: char) returns (passThrough: bool)
      modifies this
      ensures CurrentMode() == Chord(old(CurrentMode()), c).mode
      ensures written == old(written) + Chord(old(CurrentMode()), c).directive.commands
      ensures passThrough == Chord(old(CurrentMode()), c).directive.passThrough
    {
      passThrough := true;
      if c == 'a' {
        selecting := true;
      } else if c == 'f' {
        selecting := false;
        searching := true;
      } else if c == 'g' {
        selecting := true;
      } else if c == 'i' {
        if selecting {
          selecting := false;
          written := written + [DeleteSelection];
          passThrough := true;
        }
      } else if c == 'l' {
        jumping := true;
      } else if c == 'q' {
        passThrough := false;
        written := written + [Quit];
      } else if c == 's' {
        passThrough := false;
        written := written + [Save];
      } else if c == 'v' {
        if searching {
          passThrough := false;
          written := written + [InsertRegister];
          written := written + [YankRegister];
        } else {
          selecting := false;
        }
      } else if c == 'x' {
        if selecting {
          selecting := false;
        }
      }
    }

    /** vi_process_stdin: decode the buffered bytes, react, forward them if
        the reaction lets them through, and always empty the buffer. */
    method ProcessStdin(rb: ReadBuf)
      requires rb.Valid()
      modifies this, rb
      ensures rb.Valid() && rb.buf == old(rb.buf) && rb.Pending() == []
      ensures CurrentMode() == ProcessInput(old(CurrentMode()), old(rb.Pending())).mode
      ensures written == old(written) +
        Execute(ProcessInput(old(CurrentMode()), old(rb.Pending())).directive, old(rb.Pending()))
    {
      var passThrough := true;
      var input := rb.buf[..rb.offset];
      var k := InterpretKeystroke(input);
      if k.Some? {
        passThrough := ProcessKeystroke(k.value);
      } else if selecting {
        selecting := false;
        written := written + [DeleteSelection];
      }
      if passThrough {
        written := written + [input];
      }
      rb.Clear();
    }

    /** vi_drain_stdin: while the terminal has bytes ready, read as many as
        the buffer has room for and process them; the bytes left over are
        what the next read returns. */
    method DrainStdin(rb: ReadBuf, chunks: seq<seq<byte>>)
      requires rb.Valid() && rb.offset < BufSize
      modifies this, rb, rb.buf
      ensures rb.Valid() && rb.buf == old(rb.buf)
      ensures rb.Pending() == if chunks == [] then old(rb.Pending()) else []
      ensures CurrentMode() == Drain(old(CurrentMode()), old(rb.Pending()), chunks).mode
      ensures written == old(written) + Drain(old(CurrentMode()), old(rb.Pending()), chunks).writes
    {
      ghost var start := Drain(old(CurrentMode()), old(rb.Pending()), chunks);
      ghost var pending := old(rb.Pending());
      var avail := chunks;
      while avail != []
        invariant rb.Valid() && rb.buf == old(rb.buf)
        invariant |pending| < BufSize && rb.Pending() == pending
        invariant pending == if avail == chunks then old(rb.Pending()) else []
        invariant Drain(CurrentMode(), pending, avail).mode == start.mode
        invariant written + Drain(CurrentMode(), pending, avail).writes == old(written) + start.writes
        decreases Total(avail), |avail|
      {
        ghost var m, w := CurrentMode(), written;
        var space := BufSize - rb.offset;
        ghost var input := pending + Fit(avail[0], space);
        ghost var r := ProcessInput(m, input);
        ghost var rest := Drain(r.mode, [], Unread(avail, space));
        var _ := rb.Append(avail[0]);
        assert rb.Pending() == input;
        ProcessStdin(rb);
        assert CurrentMode() == r.mode;
        assert written == w + Execute(r.directive, input);
        AppendAssociates(w, Execute(r.directive, input), rest.writes);
        avail := Unread(avail, space);
        pending := [];
      }
    }
  }
}
