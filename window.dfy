/** The integer bookkeeping of the emulator window (window.c) with every
    OpenGL call stripped: the byte-order fix-up of the frame buffer, integer
    scaling and centring of the screen inside the surface, shader lookup by
    name, the on-screen message buffer, the initialisation guard and the
    integer parts of the per-frame timers. */
module Window {

  /** Size of the emulated screen in pixels (GBC_SCREEN_WIDTH/HEIGHT). */
  const ScreenWidth: nat := 160
  const ScreenHeight: nat := 144
  const ScreenSize: nat := ScreenWidth * ScreenHeight

  /** Scanlines per frame, visible and blanking (LY runs 0..153). */
  const LinesPerFrame: nat := 154

  /** Nanoseconds per second: message lifetimes are kept in nanoseconds. */
  const Second: nat := 1_000_000_000

  // ---------------------------------------------------------------------
  // Pixel byte order

  /** The four bytes of a 32-bit word, least significant first. */
  function Bytes(w: bv32): seq<bv8>
  {
    [(w & 0xFF) as bv8, ((w >> 8) & 0xFF) as bv8, ((w >> 16) & 0xFF) as bv8, ((w >> 24) & 0xFF) as bv8]
  }

  /** Reassembles a word from its four bytes, least significant first. */
  function FromBytes(b: seq<bv8>): (w: bv32)
    requires |b| == 4
  {
    (b[0] as bv32) | ((b[1] as bv32) << 8) | ((b[2] as bv32) << 16) | ((b[3] as bv32) << 24)
  }

  lemma FromBytesInverse(w: bv32)
    ensures FromBytes(Bytes(w)) == w
  {
  }

  /** The per-pixel masking and shifting of the frame-buffer loop:
      turns the emulator's pixel layout into the byte order of the texture. */
  function ByteSwap(w: bv32): (r: bv32)
    ensures Bytes(r) == [Bytes(w)[3], Bytes(w)[2], Bytes(w)[1], Bytes(w)[0]]
  {
    ((w & 0xFF) << 24) | ((w & 0xFF00) << 8) | ((w & 0xFF_0000) >> 8) | ((w & 0xFF00_0000) >> 24)
  }

  /** Swapping twice gives back the original pixel. */
  lemma ByteSwapInvolution(w: bv32)
    ensures ByteSwap(ByteSwap(w)) == w
  {
    FromBytesInverse(w);
    FromBytesInverse(ByteSwap(ByteSwap(w)));
  }

  /** The whole buffer after the fix-up loop, as a value. */
  function SwapAll(s: seq<bv32>): (r: seq<bv32>)
    ensures |r| == |s|
    ensures forall i :: 0 <= i < |s| ==> r[i] == ByteSwap(s[i])
  {
    seq(|s|, i requires 0 <= i < |s| => ByteSwap(s[i]))
  }

  /** Fixing the byte order twice leaves the buffer as it was. */
  lemma SwapAllInvolution(s: seq<bv32>)
    ensures SwapAll(SwapAll(s)) == s
  {
    forall i | 0 <= i < |s|
      ensures SwapAll(SwapAll(s))[i] == s[i]
    {
      ByteSwapInvolution(s[i]);
    }
  }

  // ---------------------------------------------------------------------
  // Integer scaling and centring

  /** The scale used without fractional scaling:
      min(width / 160, height / 144) with integer division. */
  function IntegerScale(width: nat, height: nat): (scale: nat)
    ensures scale * ScreenWidth <= width && scale * ScreenHeight <= height
    ensures (scale + 1) * ScreenWidth > width || (scale + 1) * ScreenHeight > height
  {
    var sx := width / ScreenWidth;
    var sy := height / ScreenHeight;
    if sx < sy then sx else sy
  }

  /** The offset that centres a span of `used` pixels inside `total`
      ((total - used) / 2 on unsigned integers). */
  function Centre(total: nat, used: nat): (offset: nat)
    requires used <= total
    ensures 2 * offset + used <= total
    ensures total - (2 * offset + used) <= 1
  {
    (total - used) / 2
  }

  /** Placement of the scaled screen: it fits the surface and is centred
      to within one pixel on each axis. */
  lemma ScaledScreenCentred(width: nat, height: nat)
    ensures var s := IntegerScale(width, height);
      && 2 * Centre(width, s * ScreenWidth) + s * ScreenWidth <= width
      && 2 * Centre(height, s * ScreenHeight) + s * ScreenHeight <= height
      && width - (2 * Centre(width, s * ScreenWidth) + s * ScreenWidth) <= 1
      && height - (2 * Centre(height, s * ScreenHeight) + s * ScreenHeight) <= 1
  {
  }

  // ---------------------------------------------------------------------
  // Shader lookup

  /** ASCII lower-casing as applied by strcasecmp. */
  function ToLower(c: char): char
  {
    if 'A' <= c <= 'Z' then (c as int + 32) as char else c
  }

  /** strcasecmp(a, b) == 0. */
  predicate SameIgnoringCase(a: string, b: string)
  {
    |a| == |b| && forall i :: 0 <= i < |a| ==> ToLower(a[i]) == ToLower(b[i])
  }

  /** Case-insensitive equality is an equivalence relation. */
  lemma SameIgnoringCaseEquivalence(a: string, b: string, c: string)
    ensures SameIgnoringCase(a, a)
    ensures SameIgnoringCase(a, b) ==> SameIgnoringCase(b, a)
    ensures SameIgnoringCase(a, b) && SameIgnoringCase(b, c) ==> SameIgnoringCase(a, c)
  {
  }

  /** The search loop of gbcc_window_use_shader: the index of the first
      name matching case-insensitively, or |names| when none does. */
  method FindShader(names: seq<string>, name: string) returns (s: nat)
    ensures s <= |names|
    ensures s < |names| ==> SameIgnoringCase(name, names[s])
    ensures forall j :: 0 <= j < s ==> !SameIgnoringCase(name, names[j])
  {
    s := 0;
    while s < |names|
      invariant s <= |names|
      invariant forall j :: 0 <= j < s ==> !SameIgnoringCase(name, names[j])
    {
      if SameIgnoringCase(name, names[s]) {
        break;
      }
      s := s + 1;
    }
  }

  // ---------------------------------------------------------------------
  // On-screen message

  /** ASCII space, the padding byte. */
  const Space: bv8 := 0x20

  /** The C string a `const char *` designates: its bytes up to, and
      without, the first NUL. */
  function CString(s: seq<bv8>): (r: seq<bv8>)
    ensures 0 !in r
    ensures |r| <= |s| && r == s[..|r|]
    ensures |r| < |s| ==> s[|r|] == 0
  {
    if |s| == 0 || s[0] == 0 then [] else [s[0]] + CString(s[1..])
  }

  /** The bytes stored in the message buffer of `bufSize` bytes, before the
      terminating NUL: the message (up to its own NUL), between two spaces
      when padded, cut to bufSize - 1 bytes (both the snprintf and the
      strncpy branch). */
  function MessageText(msg: seq<bv8>, pad: bool, bufSize: nat): (text: seq<bv8>)
    requires bufSize >= 1
    ensures var full := if pad then [Space] + CString(msg) + [Space] else CString(msg);
      && |text| == (if |full| < bufSize then |full| else bufSize - 1)
      && text == full[..|text|]
    ensures 0 !in text
  {
    var full := if pad then [Space] + CString(msg) + [Space] else CString(msg);
    if |full| < bufSize then full else full[..bufSize - 1]
  }

  /** A NUL-free message that fits is stored whole; a padded message starts
      with a space whenever the buffer can hold a byte; bytes after a NUL
      are never stored. */
  lemma MessageTextFits(msg: seq<bv8>, pad: bool, bufSize: nat)
    requires bufSize >= 1
    ensures 0 !in msg && !pad && |msg| < bufSize ==> MessageText(msg, pad, bufSize) == msg
    ensures 0 !in msg && pad && |msg| + 2 < bufSize ==> MessageText(msg, pad, bufSize) == [Space] + msg + [Space]
    ensures pad && bufSize >= 2 ==> MessageText(msg, pad, bufSize)[0] == Space
    ensures forall k :: 0 <= k < |msg| && msg[k] == 0 ==> MessageText(msg, pad, bufSize) == MessageText(msg[..k], pad, bufSize)
  {
    if 0 !in msg {
      NulFree(msg);
    }
    forall k | 0 <= k < |msg| && msg[k] == 0
      ensures MessageText(msg, pad, bufSize) == MessageText(msg[..k], pad, bufSize)
    {
      CStringCut(msg, k);
    }
  }

  /** A NUL-free byte string is its own C string. */
  lemma {:induction false} NulFree(s: seq<bv8>)
    requires 0 !in s
    ensures CString(s) == s
  {
    if |s| > 0 {
      NulFree(s[1..]);
    }
  }

  /** Cutting a byte string at one of its NULs keeps its C string. */
  lemma {:induction false} CStringCut(s: seq<bv8>, k: nat)
    requires k < |s| && s[k] == 0
    ensures CString(s) == CString(s[..k])
  {
    if k > 0 && s[0] != 0 {
      assert s[1..][..k - 1] == s[..k][1..];
      CStringCut(s[1..], k - 1);
    }
  }

  /** Characters per screen row for a font whose glyphs are `tileWidth`
      pixels wide (held in a uint8_t). */
  function WidthTiles(tileWidth: nat): (tiles: nat)
    requires 0 < tileWidth <= ScreenWidth
    ensures 1 <= tiles && tiles * tileWidth <= ScreenWidth < (tiles + 1) * tileWidth
  {
    ScreenWidth / tileWidth
  }

  /** Euclidean division brackets its dividend. */
  lemma DivisionBounds(n: nat, d: nat)
    requires d > 0
    ensures (n / d) * d <= n < (n / d) * d + d
  {
    assert n == (n / d) * d + n % d;
  }

  /** Conversion to uint8_t: the value modulo 256. */
  function U8(n: int): (b: nat)
    ensures b < 256
    ensures 0 <= n < 256 ==> b == n
  {
    n % 256
  }

  /** The uint8_t line count 1 + strlen(text) / width_tiles; it wraps
      only past 255. */
  function MessageLines(textLength: nat, tileWidth: nat): (lines: nat)
    requires 0 < tileWidth <= ScreenWidth
    ensures lines < 256
    ensures 1 + textLength / WidthTiles(tileWidth) < 256 ==> lines == 1 + textLength / WidthTiles(tileWidth)
  {
    U8(1 + textLength / WidthTiles(tileWidth))
  }

  /** While the count fits in a byte, the message gets enough rows of
      WidthTiles characters for its text, and not one more. */
  lemma MessageLinesFit(textLength: nat, tileWidth: nat)
    requires 0 < tileWidth <= ScreenWidth
    requires 1 + textLength / WidthTiles(tileWidth) < 256
    ensures var lines, w := MessageLines(textLength, tileWidth), WidthTiles(tileWidth);
      (lines - 1) * w <= textLength < (lines - 1) * w + w
  {
    DivisionBounds(textLength, WidthTiles(tileWidth));
  }

  // ---------------------------------------------------------------------
  // Frame progress between two timer updates

  /** Progress since the previous update, split as update_timers computes
      it: whole frames (the frame counter difference, one less when LY
      wrapped) and scanlines (the uint8_t LY difference). */
  datatype Advance = Advance(frames: int, lines: nat)

  /** Progress from (lastFrame, lastLy) to (frame, ly); LY values are bytes. */
  function FrameAdvance(frame: nat, lastFrame: nat, ly: nat, lastLy: nat): (a: Advance)
    requires ly < 256 && lastLy < 256
    ensures a.lines < 256
    ensures ly < LinesPerFrame && lastLy < LinesPerFrame ==>
      && a.lines < LinesPerFrame
      && a.lines == (ly - lastLy) % LinesPerFrame
      && a.frames * LinesPerFrame + a.lines
         == (frame * LinesPerFrame + ly) - (lastFrame * LinesPerFrame + lastLy)
  {
    if ly < lastLy then
      // uint8_t arithmetic: ly += 154 - last_ly
      Advance(frame - lastFrame - 1, U8(ly + LinesPerFrame - lastLy))
    else
      Advance(frame - lastFrame, ly - lastLy)
  }

  /** The message countdown: only a positive time_left is decreased. */
  function CountDown(timeLeft: int, elapsedNs: int): (r: int)
    ensures timeLeft <= 0 ==> r == timeLeft
    ensures timeLeft > 0 && elapsedNs >= 0 ==> r <= timeLeft
  {
    if timeLeft > 0 then timeLeft - elapsedNs else timeLeft
  }

  /** time_left after a run of updates with the given elapsed times. */
  function CountDownAll(timeLeft: int, elapsed: seq<int>): int
    decreases |elapsed|
  {
    if |elapsed| == 0 then timeLeft else CountDownAll(CountDown(timeLeft, elapsed[0]), elapsed[1..])
  }

  /** Once the countdown reaches zero or below it stays there, whatever the
      elapsed times of later updates. */
  lemma {:induction false} CountDownSettles(timeLeft: int, elapsed: seq<int>)
    requires timeLeft <= 0
    ensures CountDownAll(timeLeft, elapsed) == timeLeft
  {
    if |elapsed| > 0 {
      CountDownSettles(CountDown(timeLeft, elapsed[0]), elapsed[1..]);
    }
  }

  /** With nonnegative elapsed times the countdown never increases. */
  lemma {:induction false} CountDownMonotone(timeLeft: int, elapsed: seq<int>)
    requires forall k :: 0 <= k < |elapsed| ==> elapsed[k] >= 0
    ensures CountDownAll(timeLeft, elapsed) <= timeLeft
  {
    if |elapsed| > 0 {
      CountDownMonotone(CountDown(timeLeft, elapsed[0]), elapsed[1..]);
    }
  }

  // ---------------------------------------------------------------------
  // The window

  /** struct gbcc_window, without its OpenGL objects. */
  class GbccWindow {
    var initialised: bool
    /** Surface size, written by the caller before each update. */
    var width: nat
    var height: nat
    var scale: nat
    var x: nat
    var y: nat
    /** The texture upload buffer, one 32-bit word per screen pixel. */
    const buffer: array<bv32>
    /** Names of the shader table entries and the selected entry. */
    const shaderNames: seq<string>
    var curShader: nat
    /** The message buffer: its size, its text (up to the NUL), its line
        count and the nanoseconds it stays on screen. */
    const msgBufSize: nat
    var msgText: seq<bv8>
    var msgLines: nat
    var msgTimeLeft: int
    /** Glyph width of the loaded font. */
    const tileWidth: nat
    /** The fps ring buffer (its entries hold the integer progress each
        sample is computed from), its write index, and the frame counter
        and LY seen at the previous update. */
    var samples: seq<Advance>
    var fpsIdx: nat
    var lastFrame: nat
    var lastLy: nat

    ghost predicate Valid()
      reads this
    {
      && buffer.Length == ScreenSize
      && msgBufSize >= 1
      && |msgText| < msgBufSize && 0 !in msgText
      && 0 < tileWidth <= ScreenWidth
      && 0 < |samples|
      && fpsIdx < |samples|
      && lastLy < 256
    }

    /** The state gbcc_window_initialise leaves: every field zero, then
        `initialised` set. The message buffer size, the font's glyph width
        and the fps ring size come from headers and code outside this model.
        The shader names are a parameter too, although this source's
        initialisation leaves the table zeroed. */
    constructor (shaderNames: seq<string>, msgBufSize: nat, tileWidth: nat, fpsSlots: nat)
      requires msgBufSize >= 1 && 0 < tileWidth <= ScreenWidth && fpsSlots > 0
      ensures Valid() && fresh(buffer)
      ensures initialised
      ensures buffer[..] == seq(ScreenSize, _ => 0)
      ensures this.shaderNames == shaderNames && this.msgBufSize == msgBufSize
      ensures this.tileWidth == tileWidth && |samples| == fpsSlots
      ensures width == 0 && height == 0 && scale == 0 && x == 0 && y == 0
      ensures curShader == 0 && msgText == [] && msgLines == 0 && msgTimeLeft == 0
      ensures fpsIdx == 0 && lastFrame == 0 && lastLy == 0
    {
      buffer := new bv32[ScreenSize](_ => 0);
      this.shaderNames := shaderNames;
      this.msgBufSize := msgBufSize;
      this.tileWidth := tileWidth;
      samples := seq(fpsSlots, _ => Advance(0, 0));
      width, height, scale, x, y := 0, 0, 0, 0, 0;
      curShader, msgText, msgLines, msgTimeLeft := 0, [], 0, 0;
      fpsIdx, lastFrame, lastLy := 0, 0, 0;
      initialised := true;
    }

    /** gbcc_window_deinitialise: clears the flag (the GL objects it
        deletes are not modelled); an uninitialised window is left alone,
        so a second call does nothing. */
    method Deinitialise()
      requires Valid()
      modifies this
      ensures Valid() && !initialised
      ensures !old(initialised) ==> unchanged(this)
      ensures width == old(width) && height == old(height) && scale == old(scale)
      ensures x == old(x) && y == old(y) && curShader == old(curShader)
      ensures msgText == old(msgText) && msgLines == old(msgLines) && msgTimeLeft == old(msgTimeLeft)
      ensures samples == old(samples) && fpsIdx == old(fpsIdx)
      ensures lastFrame == old(lastFrame) && lastLy == old(lastLy)
    {
      if !initialised {
        // "Can't destroy window: Window not initialised!"
        return;
      }
      initialised := false;
    }

    /** gbcc_window_use_shader: selects the first entry whose name matches
        case-insensitively; an unknown name or an uninitialised window
        leaves the selection unchanged. */
    method UseShader(name: string)
      requires Valid()
      modifies this`curShader
      ensures Valid()
      ensures !initialised ==> curShader == old(curShader)
      ensures initialised && (exists j :: 0 <= j < |shaderNames| && SameIgnoringCase(name, shaderNames[j])) ==>
        && curShader < |shaderNames|
        && SameIgnoringCase(name, shaderNames[curShader])
        && forall j :: 0 <= j < curShader ==> !SameIgnoringCase(name, shaderNames[j])
      ensures (forall j :: 0 <= j < |shaderNames| ==> !SameIgnoringCase(name, shaderNames[j])) ==>
        curShader == old(curShader)
    {
      if !initialised {
        // "Can't load shader: Window not initialised!"
        return;
      }
      var s := FindShader(shaderNames, name);
      if s >= |shaderNames| {
        // "Invalid shader"
      } else {
        curShader := s;
      }
    }

    /** gbcc_window_show_message: stores the (padded) message, its line
        count and its lifetime; does nothing when uninitialised. */
    method ShowMessage(msg: seq<bv8>, seconds: nat, pad: bool)
      requires Valid()
      modifies this`msgText, this`msgLines, this`msgTimeLeft
      ensures Valid()
      ensures !initialised ==> msgText == old(msgText) && msgLines == old(msgLines) && msgTimeLeft == old(msgTimeLeft)
      ensures initialised ==>
        && msgText == MessageText(msg, pad, msgBufSize)
        && msgLines == MessageLines(|msgText|, tileWidth)
        && msgTimeLeft == seconds * Second
    {
      if !initialised {
        // "Can't show message: window not initialised!"
        return;
      }
      msgText := MessageText(msg, pad, msgBufSize);
      msgLines := MessageLines(|msgText|, tileWidth);
      msgTimeLeft := seconds * Second;
    }

    /** The integer parts of update_timers: records the progress sample,
        advances the ring index, remembers the current frame counter and
        LY, and counts the message down. `elapsedNs` is the clock
        difference the source measures. */
    method UpdateTimers(frame: nat, ly: nat, elapsedNs: int)
      requires Valid() && ly < 256
      modifies this`samples, this`fpsIdx, this`lastFrame, this`lastLy, this`msgTimeLeft
      ensures Valid()
      ensures |samples| == |old(samples)|
      ensures samples == old(samples)[old(fpsIdx) := FrameAdvance(frame, old(lastFrame), ly, old(lastLy))]
      ensures fpsIdx == (old(fpsIdx) + 1) % |samples|
      ensures lastFrame == frame && lastLy == ly
      ensures msgTimeLeft == CountDown(old(msgTimeLeft), elapsedNs)
    {
      samples := samples[fpsIdx := FrameAdvance(frame, lastFrame, ly, lastLy)];
      fpsIdx := (fpsIdx + 1) % |samples|;
      lastFrame := frame;
      lastLy := ly;
      if msgTimeLeft > 0 {
        msgTimeLeft := msgTimeLeft - elapsedNs;
      }
    }

    /** The copy of the emulator's screen into the upload buffer. */
    method Load(screen: seq<bv32>)
      requires |screen| == buffer.Length
      modifies buffer
      ensures buffer[..] == screen
    {
      forall i | 0 <= i < buffer.Length {
        buffer[i] := screen[i];
      }
    }

    /** The byte-order loop over the whole buffer, in place. */
    method SwapBuffer()
      modifies buffer
      ensures buffer[..] == SwapAll(old(buffer[..]))
    {
      var i := 0;
      while i < buffer.Length
        invariant 0 <= i <= buffer.Length
        invariant forall k :: 0 <= k < i ==> buffer[k] == ByteSwap(old(buffer[k]))
        invariant forall k :: i <= k < buffer.Length ==> buffer[k] == old(buffer[k])
      {
        buffer[i] := ByteSwap(buffer[i]);
        i := i + 1;
      }
    }

    /** gbcc_window_update without its GL calls: when initialised, updates
        the timers, copies the emulator's screen into the buffer and fixes
        its byte order, then computes the integer scale and the centred
        position; when uninitialised, does nothing. */
    method Update(screen: seq<bv32>, frame: nat, ly: nat, elapsedNs: int)
      requires Valid() && |screen| == ScreenSize && ly < 256
      modifies this, buffer
      ensures Valid()
      ensures !old(initialised) ==> unchanged(this) && unchanged(buffer)
      ensures old(initialised) ==>
        && buffer[..] == SwapAll(screen)
        && scale == IntegerScale(width, height)
        && x == Centre(width, scale * ScreenWidth)
        && y == Centre(height, scale * ScreenHeight)
        && samples == old(samples)[old(fpsIdx) := FrameAdvance(frame, old(lastFrame), ly, old(lastLy))]
        && fpsIdx == (old(fpsIdx) + 1) % |samples|
        && lastFrame == frame && lastLy == ly
        && msgTimeLeft == CountDown(old(msgTimeLeft), elapsedNs)
      ensures initialised == old(initialised) && width == old(width) && height == old(height)
      ensures curShader == old(curShader) && msgText == old(msgText) && msgLines == old(msgLines)
    {
      if !initialised {
        // "Can't update window: Window not initialised!"
        return;
      }
      UpdateTimers(frame, ly, elapsedNs);
      Load(screen);
      SwapBuffer();
      Place();
    }

    /** The largest integer scale at which the screen fits the surface,
        and the offsets that centre the scaled screen. */
    method Place()
      modifies this`scale, this`x, this`y
      ensures scale == IntegerScale(width, height)
      ensures x == Centre(width, scale * ScreenWidth) && y == Centre(height, scale * ScreenHeight)
    {
      scale := IntegerScale(width, height);
      x := Centre(width, scale * ScreenWidth);
      y := Centre(height, scale * ScreenHeight);
    }
  }
}
