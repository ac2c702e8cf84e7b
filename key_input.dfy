/** Vocabulary shared by both generations of the keystroke translator:
    bytes, the input buffer, symbolic key names and the cursor-key letters
    that both src/vi.c and src/main.c recognise with identical macros. */
module KeyInput {

  /** An unsigned byte as read from the terminal. */
  newtype byte = x: int | 0 <= x < 0x100

  /** Capacity of a ReadBuf (`BUF_SIZE`). */
  const BufSize: nat := 256

  /** ESC, the first byte of every escape sequence. */
  const Esc: byte := 0x1B
  /** `[`: ESC [ opens a control sequence (CSI). */
  const CsiIntro: byte := 0x5B
  /** `O`: ESC O opens a single-shift-3 (SS3) cursor-key sequence. */
  const Ss3Intro: byte := 0x4F

  datatype Option<T> = None | Some(value: T)

  /** The closed set of key names a decoder can produce: the navigation keys,
      the entries of the control-byte table, and the indent punctuation. */
  datatype Name =
    | Up | Down | Left | Right | Home | End
    | PageUp | PageDown | Delete | Backspace
    | Enter | Return | Escape | Backtick | Tilde
    | Less | Greater
    | Letter(c: char)

  /** A decoded key press: a name and three modifier flags. */
  datatype Keystroke = Keystroke(name: Name, shift: bool, ctrl: bool, meta: bool)

  /** A key with no modifier held. */
  function Plain(name: Name): Keystroke {
    Keystroke(name, false, false, false)
  }

  /** The names UDLREH_TO_NAME can produce. */
  predicate IsCursorName(n: Name) {
    n == Up || n == Down || n == Right || n == Left || n == End || n == Home
  }

  /** IS_UDLREH: the final letters A, B, C, D, F, H of a cursor-key sequence. */
  predicate IsUdlreh(c: byte)
    ensures IsUdlreh(c) ==> 0x41 <= c <= 0x48 && c != 0x45 && c != 0x47
  {
    (0x41 <= c <= 0x44) || c == 0x46 || c == 0x48
  }

  /** UDLREH_TO_NAME: the name of a cursor-key final letter; any byte other
      than A, B, C, D, F falls through to "home", as in the macro. */
  function UdlrehToName(c: byte): (n: Name)
    ensures IsCursorName(n)
    ensures IsUdlreh(c) ==> UdlrehByte(n) == c
    ensures !(0x41 <= c <= 0x44 || c == 0x46) ==> n == Home
  {
    if c == 0x41 then Up
    else if c == 0x42 then Down
    else if c == 0x43 then Right
    else if c == 0x44 then Left
    else if c == 0x46 then End
    else Home
  }

  /** The final letter that a terminal sends for a cursor key. */
  function UdlrehByte(n: Name): (c: byte)
    requires IsCursorName(n)
    ensures IsUdlreh(c)
  {
    match n
    case Up => 0x41
    case Down => 0x42
    case Right => 0x43
    case Left => 0x44
    case End => 0x46
    case Home => 0x48
  }

  /** UDLREH_TO_NAME undoes UdlrehByte: every cursor key survives the trip
      through its final letter. */
  lemma UdlrehNameRoundTrip(n: Name)
    requires IsCursorName(n)
    ensures UdlrehToName(UdlrehByte(n)) == n
  {
  }

  /** What one key press does to the editor: the command strings written to
      vim, in order, and whether the key's own bytes are forwarded after them. */
  datatype Directive = Directive(commands: seq<seq<byte>>, passThrough: bool)

  /** The writes that carry out a directive for the raw input `raw`. */
  function Execute(d: Directive, raw: seq<byte>): (w: seq<seq<byte>>)
    ensures |w| == |d.commands| + (if d.passThrough then 1 else 0)
    ensures w[..|d.commands|] == d.commands
    ensures d.passThrough ==> w[|w| - 1] == raw
  {
    d.commands + if d.passThrough then [raw] else []
  }

  /** ESC i: leave visual mode and go back to insert mode; both generations
      write it when a cursor key ends a selection. */
  const ExitVisual: seq<byte> := Ascii("\U{1B}i")

  /** The bytes of an ASCII string, as a C string literal passed to write(). */
  function Ascii(s: string): (b: seq<byte>)
    requires forall i :: 0 <= i < |s| ==> s[i] as int < 0x80
    ensures |b| == |s|
    ensures forall i :: 0 <= i < |s| ==> b[i] as int == s[i] as int
  {
    seq(|s|, i requires 0 <= i < |s| => s[i] as int as byte)
  }

  /** Sequence concatenation regroups freely. */
  lemma AppendAssociates<T>(a: seq<T>, b: seq<T>, c: seq<T>)
    ensures (a + b) + c == a + (b + c)
  {
  }

  /** The part of the first pending chunk that one read() stores when
      `space` bytes of the buffer are free: read() is asked for at most that
      many bytes. */
  function Fit(chunk: seq<byte>, space: nat): (r: seq<byte>)
    ensures |r| <= space && r <= chunk
    ensures |r| == if |chunk| <= space then |chunk| else space
  {
    if |chunk| <= space then chunk else chunk[..space]
  }

  /** The number of bytes in a run of chunks. */
  function Total(chunks: seq<seq<byte>>): nat {
    if chunks == [] then 0 else |chunks[0]| + Total(chunks[1..])
  }

  /** The bytes still waiting in the terminal after one read() of at most
      `space` bytes from the first chunk: what did not fit is read next. */
  function Unread(chunks: seq<seq<byte>>, space: nat): (rest: seq<seq<byte>>)
    requires chunks != [] && space > 0
    ensures Total(rest) + |Fit(chunks[0], space)| == Total(chunks)
    ensures Total(rest) < Total(chunks) || (Total(rest) == Total(chunks) && |rest| < |chunks|)
    ensures |chunks[0]| <= space ==> rest == chunks[1..]
    // no byte is lost or reordered: the unread tail of the first chunk comes first
    ensures |chunks[0]| > space ==>
      |rest| == |chunks| && Fit(chunks[0], space) + rest[0] == chunks[0] && rest[1..] == chunks[1..]
  {
    if |chunks[0]| <= space then chunks[1..]
    else
      var rest := [chunks[0][space..]] + chunks[1..];
      assert rest[1..] == chunks[1..];
      rest
  }

  /** ReadBuf: a fixed buffer of BUF_SIZE bytes of which the first `offset`
      hold input not yet processed. */
  class ReadBuf {
    var buf: array<byte>
    var offset: nat

    ghost predicate Valid()
      reads this
    {
      buf.Length == BufSize && offset <= BufSize
    }

    /** The bytes buffered so far. */
    function Pending(): seq<byte>
      reads this, buf
      requires Valid()
    {
      buf[..offset]
    }

    constructor ()
      ensures Valid() && fresh(buf) && Pending() == []
    {
      buf := new byte[BufSize];
      offset := 0;
    }

    /** One read() into `&buf[offset]` of at most `BUF_SIZE - offset` bytes,
        followed by `offset += n`; `chunk` is the next bytes the terminal
        has ready, of which only what fits is taken. */
    method Append(chunk: seq<byte>) returns (n: nat)
      requires Valid()
      modifies this, buf
      ensures Valid() && buf == old(buf)
      ensures n == |Fit(chunk, BufSize - old(offset))|
      ensures Pending() == old(Pending()) + Fit(chunk, BufSize - old(offset))
    {
      var data := Fit(chunk, BufSize - offset);
      n := |data|;
      forall j | 0 <= j < n {
        buf[offset + j] := data[j];
      }
      offset := offset + n;
      assert Pending() == old(Pending()) + data;
    }

    /** `offset = 0`: the buffered bytes are dropped. */
    method Clear()
      requires Valid()
      modifies this
      ensures Valid() && buf == old(buf) && Pending() == []
    {
      offset := 0;
    }
  }
}
