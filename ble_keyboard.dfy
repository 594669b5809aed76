/** The HID report builder of `src/ble_keyboard.rs`: an 8-byte keyboard
    report (modifier byte, reserved byte, six key slots) and a 2-byte media
    key report. Sending a report (`send_report`, `send_media_keys_report`)
    appends a snapshot of it to a log of sent reports. */
module Keyboard {
  import opened Options

  /** Translation from ASCII to a HID usage code, laid out in sixteen rows of
      eight: byte `k` is entry `k % 8` of row `k / 8`. Entries with bit 0x80
      set need the shift modifier, and a 0 entry means "not typeable". */
  const ASCII_MAP: seq<seq<bv8>> := [
    [0x00, 0x00, 0x00, 0x00, 0x00, 0x00, 0x00, 0x00],  // NUL .. BEL
    [0x2a, 0x2b, 0x28, 0x00, 0x00, 0x00, 0x00, 0x00],  // BS TAB LF VT FF CR SO SI
    [0x00, 0x00, 0x00, 0x00, 0x00, 0x00, 0x00, 0x00],  // DLE .. ETB
    [0x00, 0x00, 0x00, 0x00, 0x00, 0x00, 0x00, 0x00],  // CAN .. US
    [0x2c, 0x9e, 0xb4, 0xa0, 0xa1, 0xa2, 0xa4, 0x34],  // space ! " # $ % & '
    [0xa6, 0xa7, 0xa5, 0xae, 0x36, 0x2d, 0x37, 0x38],  // ( ) * + , - . /
    [0x27, 0x1e, 0x1f, 0x20, 0x21, 0x22, 0x23, 0x24],  // 0 .. 7
    [0x25, 0x26, 0xb3, 0x33, 0xb6, 0x2e, 0xb7, 0xb8],  // 8 9 : ; < = > ?
    [0x9f, 0x84, 0x85, 0x86, 0x87, 0x88, 0x89, 0x8a],  // @ A .. G
    [0x8b, 0x8c, 0x8d, 0x8e, 0x8f, 0x90, 0x91, 0x92],  // H .. O
    [0x93, 0x94, 0x95, 0x96, 0x97, 0x98, 0x99, 0x9a],  // P .. W
    [0x9b, 0x9c, 0x9d, 0x2f, 0x31, 0x30, 0xa3, 0xad],  // X Y Z [ \ ] ^ _
    [0x35, 0x04, 0x05, 0x06, 0x07, 0x08, 0x09, 0x0a],  // ` a .. g
    [0x0b, 0x0c, 0x0d, 0x0e, 0x0f, 0x10, 0x11, 0x12],  // h .. o
    [0x13, 0x14, 0x15, 0x16, 0x17, 0x18, 0x19, 0x1a],  // p .. w
    [0x1b, 0x1c, 0x1d, 0xaf, 0xb1, 0xb0, 0xb5, 0x00]  // x y z { | } ~ DEL
  ]

  const SHIFT: bv8 := 0x80
  const KEY_LEFT_CTRL: bv8 := 0x80
  const KEY_LEFT_SHIFT: bv8 := 0x81
  const KEY_M: bv8 := 0x4D  // b'M'

  /** A snapshot of the packed `KeyReport` struct. */
  datatype KeyReport = KeyReport(modifiers: bv8, reserved: bv8, keys: seq<bv8>)

  const EMPTY_REPORT: KeyReport := KeyReport(0, 0, [0, 0, 0, 0, 0, 0])

  /** A snapshot of the 2-byte media key report `[byte0, byte1]`; byte 0 is
      the high byte of a 16-bit mask. */
  datatype MediaKeyReport = MediaKeyReport(byte0: bv8, byte1: bv8)

  const KEY_MEDIA_VOLUME_UP: MediaKeyReport := MediaKeyReport(32, 0)
  const KEY_MEDIA_VOLUME_DOWN: MediaKeyReport := MediaKeyReport(64, 0)
  const NO_MEDIA_KEYS: MediaKeyReport := MediaKeyReport(0, 0)

  /** The table has 128 entries, one per ASCII byte. */
  lemma AsciiMapSize()
    ensures |ASCII_MAP| == 16 && forall row :: 0 <= row < 16 ==> |ASCII_MAP[row]| == 8
  {
  }

  /** The translation `press` applies to an ASCII byte. */
  function AsciiCode(k: bv8): bv8
    requires k < 128
  {
    ASCII_MAP[(k / 8) as int][(k % 8) as int]
  }

  /** Index of the first empty (zero) slot, or `|keys|` when every slot is taken. */
  function FirstZero(keys: seq<bv8>): (i: nat)
    ensures i <= |keys|
    decreases |keys|
  {
    if keys == [] then 0
    else if keys[0] == 0 then 0
    else 1 + FirstZero(keys[1..])
  }

  /** `FirstZero` finds the first zero slot: every slot before it is taken. */
  lemma {:induction false} FirstZeroIsFirst(keys: seq<bv8>)
    ensures forall j :: 0 <= j < FirstZero(keys) ==> keys[j] != 0
    ensures FirstZero(keys) < |keys| ==> keys[FirstZero(keys)] == 0
    decreases |keys|
  {
    if keys != [] && keys[0] != 0 {
      FirstZeroIsFirst(keys[1..]);
    }
  }

  /** The slot search of `press`: an absent code goes into the first empty slot. */
  function InsertKey(keys: seq<bv8>, k: bv8): seq<bv8>
  {
    if k in keys then keys
    else
      var i := FirstZero(keys);
      if i < |keys| then keys[i := k] else keys
  }

  /** Non-zero slots hold pairwise distinct codes. */
  ghost predicate DistinctNonZero(keys: seq<bv8>)
  {
    forall i, j :: 0 <= i < j < |keys| && keys[i] != 0 ==> keys[i] != keys[j]
  }

  /** How `press` reads a byte `k`: the modifier bits it ORs into the report
      and the code it then puts into a slot (0 puts nothing), or `None` for an
      ASCII byte the table does not map. */
  datatype Translation = Translation(modifierBits: bv8, code: bv8)

  function Translate(k: bv8): Option<Translation>
  {
    if k >= 136 then Some(Translation(0, k - 136))
    else if k >= 128 then Some(Translation(1 << (k - 128), 0))
    else
      var code := AsciiCode(k);
      if code == 0 then None
      else if code & SHIFT == SHIFT then Some(Translation(0x02, code & 0x7F))
      else Some(Translation(0, code))
  }

  /** The report `press(k)` produces from `r` and sends, or `None` for an
      unmapped ASCII byte, which `press` drops without sending anything. */
  function PressReport(r: KeyReport, k: bv8): Option<KeyReport>
  {
    match Translate(k)
    case None => None
    case Some(t) => Some(KeyReport(r.modifiers | t.modifierBits, r.reserved, InsertKey(r.keys, t.code)))
  }

  /** The report after `press(k)` from `r`: unchanged for an unmapped byte. */
  function Pressed(r: KeyReport, k: bv8): KeyReport
  {
    match PressReport(r, k)
    case None => r
    case Some(p) => p
  }

  /** The reports `press(k)` sends from `r`: one, or none for an unmapped byte. */
  function PressSent(r: KeyReport, k: bv8): seq<KeyReport>
  {
    match PressReport(r, k)
    case None => []
    case Some(p) => [p]
  }

  /** The reports `toggle_mute` sends from report `r`: Ctrl, Shift, 'M', release. */
  function MuteReports(r: KeyReport): seq<KeyReport>
  {
    var r1 := Pressed(r, KEY_LEFT_CTRL);
    var r2 := Pressed(r1, KEY_LEFT_SHIFT);
    PressSent(r, KEY_LEFT_CTRL) + PressSent(r1, KEY_LEFT_SHIFT) + PressSent(r2, KEY_M) + [EMPTY_REPORT]
  }

  /** The reports `_write` sends for one byte `c`: the press report when the
      byte is mapped, then the release report. */
  function CharReports(r: KeyReport, c: bv8): seq<KeyReport>
  {
    PressSent(r, c) + [EMPTY_REPORT]
  }

  /** The reports `_write(s)` sends from report `r`. */
  function WriteReports(r: KeyReport, s: seq<bv8>): seq<KeyReport>
    decreases |s|
  {
    if s == [] then []
    else CharReports(r, s[0]) + WriteReports(EMPTY_REPORT, s[1..])
  }

  /** The 16-bit view of a media report, byte 0 high. */
  function Pack(m: MediaKeyReport): (w: bv16)
    ensures w >> 8 == m.byte0 as bv16
    ensures w & 0xFF == m.byte1 as bv16
  {
    (m.byte1 as bv16) | ((m.byte0 as bv16) << 8)
  }

  /** The bytes of a 16-bit media mask, byte 0 high. */
  function Unpack(w: bv16): (m: MediaKeyReport)
    ensures Pack(m) == w
  {
    MediaKeyReport((w >> 8) as bv8, (w & 0xFF) as bv8)
  }

  /** `press_media_key`'s mask update: the key's bits are set, every other bit is kept. */
  function MediaPress(mask: bv16, k: bv16): (r: bv16)
    ensures r & k == k
    ensures r & !k == mask & !k
  {
    mask | k
  }

  /** `release_media_keys`'s mask update: the key's bits are cleared, every other bit is kept. */
  function MediaRelease(mask: bv16, k: bv16): (r: bv16)
    ensures r & k == 0
    ensures r & !k == mask & !k
  {
    mask & !k
  }

  /** The two media reports `volume_up`/`volume_down` send for key `k` from report `m`. */
  function VolumeReports(m: MediaKeyReport, k: MediaKeyReport): seq<MediaKeyReport>
  {
    var pressed := MediaPress(Pack(m), Pack(k));
    [Unpack(pressed), Unpack(MediaRelease(pressed, Pack(k)))]
  }

  class BleKeyboard {
    var modifiers: bv8
    const keys: array<bv8>
    const mediaKeyReport: array<bv8>
    /** Keyboard input reports sent, oldest first. */
    var keyReports: seq<KeyReport>
    /** Media key input reports sent, oldest first. */
    var mediaReports: seq<MediaKeyReport>

    ghost predicate Valid()
      reads this, keys
    {
      && keys.Length == 6
      && mediaKeyReport.Length == 2
      && keys != mediaKeyReport
    }

    /** The current keyboard report; the reserved byte is always 0. */
    function Report(): KeyReport
      reads this, keys
    {
      KeyReport(modifiers, 0, keys[..])
    }

    function Media(): MediaKeyReport
      reads mediaKeyReport
      requires mediaKeyReport.Length == 2
    {
      MediaKeyReport(mediaKeyReport[0], mediaKeyReport[1])
    }

    /** The report state `BleKeyboard::new` sets up; no report is sent yet. */
    constructor ()
      ensures Valid() && fresh(keys) && fresh(mediaKeyReport)
      ensures Report() == EMPTY_REPORT && Media() == NO_MEDIA_KEYS
      ensures keyReports == [] && mediaReports == []
    {
      modifiers := 0;
      keys := new bv8[6](_ => 0);
      mediaKeyReport := new bv8[2](_ => 0);
      keyReports := [];
      mediaReports := [];
      new;
      assert keys[..] == [0, 0, 0, 0, 0, 0];
    }

    /** `press(k)`: a raw code, a modifier or a mapped ASCII byte is added to
        the report, which is then sent; an unmapped ASCII byte changes nothing
        and sends nothing. */
    method Press(k: bv8)
      requires Valid()
      modifies this, keys
      ensures Valid()
      ensures Report() == Pressed(old(Report()), k)
      ensures keyReports == old(keyReports) + PressSent(old(Report()), k)
      ensures mediaReports == old(mediaReports) && Media() == old(Media())
    {
      var mapped, code := TranslateKey(k);
      if !mapped {
        return;
      }
      InsertSlot(code);
      keyReports := keyReports + [Report()];
    }

    /** The first half of `press`: the byte is read as a raw code, a modifier
        or an ASCII character; modifier bits go into the report. */
    method TranslateKey(k: bv8) returns (mapped: bool, code: bv8)
      modifies this
      ensures mapped <==> Translate(k).Some?
      ensures mapped ==> code == Translate(k).value.code
      ensures modifiers == if mapped then old(modifiers) | Translate(k).value.modifierBits else old(modifiers)
      ensures keyReports == old(keyReports) && mediaReports == old(mediaReports)
    {
      mapped := true;
      code := k;
      if k >= 136 {
        code := k - 136;
      } else if k >= 128 {
        modifiers := modifiers | (1 << (k - 128));
        code := 0;
      } else {
        code := ASCII_MAP[(k / 8) as int][(k % 8) as int];
        if code == 0 {
          mapped := false;
          return;
        }
        if code & SHIFT == SHIFT {
          modifiers := modifiers | 0x02;
          code := code & 0x7F;
        }
      }
    }

    /** The slot search of `press`: unless `code` is already in a slot, it is
        stored in the first empty slot, if there is one. */
    method InsertSlot(code: bv8)
      requires keys.Length == 6
      modifies keys
      ensures keys[..] == InsertKey(old(keys[..]), code)
    {
      ghost var before := keys[..];
      if code !in keys[..] {
        for i := 0 to 6
          invariant keys[..] == before
          invariant forall j :: 0 <= j < i ==> keys[j] != 0
        {
          if keys[i] == 0 {
            keys[i] := code;
            FirstZeroIsFirst(before);
            assert FirstZero(before) == i;
            assert keys[..] == InsertKey(before, code);
            return;
          }
        }
        FirstZeroIsFirst(before);
        assert FirstZero(before) == 6;
      }
    }

    /** `release`: clears the modifiers and all six slots and sends the empty report. */
    method Release()
      requires Valid()
      modifies this, keys
      ensures Valid()
      ensures Report() == EMPTY_REPORT
      ensures keyReports == old(keyReports) + [EMPTY_REPORT]
      ensures mediaReports == old(mediaReports) && Media() == old(Media())
    {
      modifiers := 0;
      forall i | 0 <= i < 6 {
        keys[i] := 0;
      }
      assert keys[..] == [0, 0, 0, 0, 0, 0];
      keyReports := keyReports + [Report()];
    }

    /** `toggle_mute`: Ctrl+Shift+M pressed one key at a time, then released. */
    method ToggleMute()
      requires Valid()
      modifies this, keys
      ensures Valid()
      ensures Report() == EMPTY_REPORT
      ensures keyReports == old(keyReports) + MuteReports(old(Report()))
      ensures mediaReports == old(mediaReports) && Media() == old(Media())
    {
      ghost var log0, r0 := keyReports, Report();
      Press(KEY_LEFT_CTRL);
      ghost var r1 := Report();
      Press(KEY_LEFT_SHIFT);
      ghost var r2 := Report();
      Press(KEY_M);
      Release();
      AppendFour(log0, PressSent(r0, KEY_LEFT_CTRL), PressSent(r1, KEY_LEFT_SHIFT), PressSent(r2, KEY_M), [EMPTY_REPORT]);
    }

    /** `_write(s)`: each byte pressed and released in turn. */
    method Write(s: seq<bv8>)
      requires Valid()
      modifies this, keys
      ensures Valid()
      ensures keyReports == old(keyReports) + WriteReports(old(Report()), s)
      ensures s != [] ==> Report() == EMPTY_REPORT
      ensures s == [] ==> Report() == old(Report())
      ensures mediaReports == old(mediaReports) && Media() == old(Media())
    {
      ghost var start := Report();
      for i := 0 to |s|
        invariant Valid()
        invariant keyReports == old(keyReports) + WriteReports(start, s[..i])
        invariant Report() == if i == 0 then start else EMPTY_REPORT
        invariant mediaReports == old(mediaReports)
      {
        ghost var r := Report();
        WriteReportsSnoc(start, s[..i], s[i]);
        assert s[..i + 1] == s[..i] + [s[i]];
        Press(s[i]);
        Release();
        AppendThree(old(keyReports), WriteReports(start, s[..i]), PressSent(r, s[i]), [EMPTY_REPORT]);
      }
      assert s[..|s|] == s;
    }

    /** `press_media_key(k)`: ORs the key's mask into the media report and sends it. */
    method PressMediaKey(k: MediaKeyReport)
      requires Valid()
      modifies this, mediaKeyReport
      ensures Valid() && Report() == old(Report()) && keyReports == old(keyReports)
      ensures Media() == Unpack(MediaPress(Pack(old(Media())), Pack(k)))
      ensures mediaReports == old(mediaReports) + [Media()]
    {
      var k16 := Pack(k);
      var report16 := Pack(Media());
      report16 := report16 | k16;
      var bytes := Unpack(report16);
      mediaKeyReport[0] := bytes.byte0;
      mediaKeyReport[1] := bytes.byte1;
      mediaReports := mediaReports + [Media()];
    }

    /** `release_media_keys(k)`: clears the key's mask bits in the media report and sends it. */
    method ReleaseMediaKeys(k: MediaKeyReport)
      requires Valid()
      modifies this, mediaKeyReport
      ensures Valid() && Report() == old(Report()) && keyReports == old(keyReports)
      ensures Media() == Unpack(MediaRelease(Pack(old(Media())), Pack(k)))
      ensures mediaReports == old(mediaReports) + [Media()]
    {
      var k16 := Pack(k);
      var report16 := Pack(Media());
      report16 := report16 & !k16;
      var bytes := Unpack(report16);
      mediaKeyReport[0] := bytes.byte0;
      mediaKeyReport[1] := bytes.byte1;
      mediaReports := mediaReports + [Media()];
    }

    /** `volume_up`: press and release the volume-up media key. */
    method VolumeUp()
      requires Valid()
      modifies this, mediaKeyReport
      ensures Valid() && Report() == old(Report()) && keyReports == old(keyReports)
      ensures mediaReports == old(mediaReports) + VolumeReports(old(Media()), KEY_MEDIA_VOLUME_UP)
      ensures Media() == mediaReports[|mediaReports| - 1]
    {
      PressMediaKey(KEY_MEDIA_VOLUME_UP);
      ReleaseMediaKeys(KEY_MEDIA_VOLUME_UP);
    }

    /** `volume_down`: press and release the volume-down media key. */
    method VolumeDown()
      requires Valid()
      modifies this, mediaKeyReport
      ensures Valid() && Report() == old(Report()) && keyReports == old(keyReports)
      ensures mediaReports == old(mediaReports) + VolumeReports(old(Media()), KEY_MEDIA_VOLUME_DOWN)
      ensures Media() == mediaReports[|mediaReports| - 1]
    {
      PressMediaKey(KEY_MEDIA_VOLUME_DOWN);
      ReleaseMediaKeys(KEY_MEDIA_VOLUME_DOWN);
    }
  }

  /** The slot search: a present code changes nothing; an absent one goes
      into the first empty slot and nowhere else; with six taken slots it is
      dropped. */
  lemma InsertKeySlots(keys: seq<bv8>, k: bv8)
    ensures |InsertKey(keys, k)| == |keys|
    ensures k in keys ==> InsertKey(keys, k) == keys
    ensures 0 !in keys ==> InsertKey(keys, k) == keys
    ensures k !in keys && 0 in keys ==>
      FirstZero(keys) < |keys| && InsertKey(keys, k) == keys[FirstZero(keys) := k]
    ensures k != 0 && (k in keys || 0 in keys) ==> k in InsertKey(keys, k)
  {
    FirstZeroIsFirst(keys);
    if k !in keys && 0 in keys {
      var j :| 0 <= j < |keys| && keys[j] == 0;
      assert FirstZero(keys) <= j;
      assert InsertKey(keys, k)[FirstZero(keys)] == k;
    }
  }

  /** The slot search keeps the non-zero slots pairwise distinct. */
  lemma InsertKeyKeepsDistinct(keys: seq<bv8>, k: bv8)
    requires DistinctNonZero(keys)
    ensures DistinctNonZero(InsertKey(keys, k))
  {
    var r := InsertKey(keys, k);
    if r != keys {
      var i := FirstZero(keys);
      assert i < |keys| && r == keys[i := k] && k !in keys;
      forall a, b | 0 <= a < b < |r| && r[a] != 0 ensures r[a] != r[b] {
        if a == i {
          assert r[b] == keys[b];
        } else if b == i {
          assert r[a] == keys[a];
        }
      }
    }
  }

  /** What `press(k)` does to the report for a raw code or a modifier byte. */
  lemma PressRawOrModifier(r: KeyReport, k: bv8)
    ensures k >= 136 ==>
      PressReport(r, k) == Some(KeyReport(r.modifiers, r.reserved, InsertKey(r.keys, k - 136)))
    ensures 128 <= k < 136 ==>
      PressReport(r, k) == Some(KeyReport(r.modifiers | (1 << (k - 128)), r.reserved, r.keys))
  {
    if 128 <= k < 136 {
      InsertZero(r.keys);
    }
  }

  /** `press(k)` drops an ASCII byte the table does not map. */
  lemma PressUnmapped(r: KeyReport, k: bv8)
    requires k < 128 && AsciiCode(k) == 0
    ensures PressReport(r, k) == None
  {
  }

  /** `press(k)` of an ASCII byte whose entry has the shift bit adds the
      Shift modifier and puts the entry without that bit into a slot. */
  lemma PressShifted(r: KeyReport, k: bv8)
    requires k < 128 && AsciiCode(k) & 0x80 == 0x80
    ensures PressReport(r, k) == Some(KeyReport(r.modifiers | 0x02, r.reserved, InsertKey(r.keys, AsciiCode(k) & 0x7F)))
  {
  }

  /** `press(k)` of an ASCII byte with a plain entry puts that entry into a
      slot and leaves the modifiers alone. */
  lemma PressUnshifted(r: KeyReport, k: bv8)
    requires k < 128 && AsciiCode(k) != 0 && AsciiCode(k) & 0x80 == 0
    ensures PressReport(r, k) == Some(KeyReport(r.modifiers, r.reserved, InsertKey(r.keys, AsciiCode(k))))
  {
  }

  /** Every key array either contains 0 or has no zero slot: inserting 0 changes nothing. */
  lemma InsertZero(keys: seq<bv8>)
    ensures InsertKey(keys, 0) == keys
  {
    if 0 !in keys {
      FirstZeroIsFirst(keys);
      assert FirstZero(keys) == |keys|;
    }
  }

  lemma AppendAssoc<T>(a: seq<T>, b: seq<T>, c: seq<T>)
    ensures a + (b + c) == a + b + c
  {
  }

  /** Appending three pieces one by one appends their concatenation. */
  lemma AppendThree<T>(log: seq<T>, a: seq<T>, b: seq<T>, c: seq<T>)
    ensures log + a + b + c == log + (a + (b + c))
  {
  }

  /** Appending four pieces one by one appends their concatenation. */
  lemma AppendFour<T>(log: seq<T>, a: seq<T>, b: seq<T>, c: seq<T>, d: seq<T>)
    ensures log + a + b + c + d == log + (a + b + c + d)
  {
  }

  /** `toggle_mute` sends the report with Ctrl added, then with Ctrl and
      Shift, then with 'M' (usage 0x10) put into a slot as well, and finally
      the empty report. */
  lemma MuteReportsShape(r: KeyReport)
    ensures MuteReports(r) == [
      KeyReport(r.modifiers | 0x01, r.reserved, r.keys),
      KeyReport(r.modifiers | 0x03, r.reserved, r.keys),
      KeyReport(r.modifiers | 0x03, r.reserved, InsertKey(r.keys, 0x10)),
      EMPTY_REPORT]
  {
    var r1 := KeyReport(r.modifiers | 0x01, r.reserved, r.keys);
    var r2 := KeyReport(r.modifiers | 0x03, r.reserved, r.keys);
    var r3 := KeyReport(r.modifiers | 0x03, r.reserved, InsertKey(r.keys, 0x10));
    PressRawOrModifier(r, KEY_LEFT_CTRL);
    SentOne(r, KEY_LEFT_CTRL, r1);
    PressRawOrModifier(r1, KEY_LEFT_SHIFT);
    SentOne(r1, KEY_LEFT_SHIFT, r2);
    PressLetterM(r2);
    SentOne(r2, KEY_M, r3);
    assert MuteReports(r) == [r1] + [r2] + [r3] + [EMPTY_REPORT];
  }

  /** A press that produces report `p` leaves `p` and sends it. */
  lemma SentOne(r: KeyReport, k: bv8, p: KeyReport)
    requires PressReport(r, k) == Some(p)
    ensures Pressed(r, k) == p && PressSent(r, k) == [p]
  {
  }

  /** `press(b'M')` adds Shift and puts usage 0x10 into a slot. */
  lemma PressLetterM(r: KeyReport)
    ensures PressReport(r, KEY_M) == Some(KeyReport(r.modifiers | 0x02, r.reserved, InsertKey(r.keys, 0x10)))
  {
    assert AsciiCode(KEY_M) == 0x90;
  }

  /** On the empty report a pressed code goes into the first slot. */
  lemma InsertIntoEmpty(k: bv8)
    ensures InsertKey(EMPTY_REPORT.keys, k) == [k, 0, 0, 0, 0, 0]
  {
    var z := EMPTY_REPORT.keys;
    assert FirstZero(z) == 0;
    if k in z {
      var i :| 0 <= i < |z| && z[i] == k;
      assert k == 0;
    }
  }

  /** From the empty report, `toggle_mute` sends Ctrl, Ctrl+Shift,
      Ctrl+Shift+M and the empty report. */
  lemma ToggleMuteFromEmpty()
    ensures MuteReports(EMPTY_REPORT) == [
      KeyReport(0x01, 0, [0, 0, 0, 0, 0, 0]),
      KeyReport(0x03, 0, [0, 0, 0, 0, 0, 0]),
      KeyReport(0x03, 0, [0x10, 0, 0, 0, 0, 0]),
      EMPTY_REPORT]
  {
    MuteReportsShape(EMPTY_REPORT);
    InsertIntoEmpty(0x10);
  }

  /** Appending one byte to the text appends that byte's reports. */
  lemma {:induction false} WriteReportsSnoc(r: KeyReport, s: seq<bv8>, c: bv8)
    ensures WriteReports(r, s + [c]) == WriteReports(r, s) + CharReports(if s == [] then r else EMPTY_REPORT, c)
    decreases |s|
  {
    if s == [] {
      assert [c][1..] == [];
    } else {
      var t := s[1..];
      assert (s + [c])[0] == s[0];
      assert (s + [c])[1..] == t + [c];
      var head := CharReports(r, s[0]);
      var last := CharReports(EMPTY_REPORT, c);
      WriteReportsSnoc(EMPTY_REPORT, t, c);
      assert WriteReports(r, s + [c]) == head + (WriteReports(EMPTY_REPORT, t) + last);
      AppendAssoc(head, WriteReports(EMPTY_REPORT, t), last);
    }
  }

  /** `_write(s)` sends one or two reports per byte, and ends with the empty report. */
  lemma {:induction false} WriteReportsShape(r: KeyReport, s: seq<bv8>)
    ensures |s| <= |WriteReports(r, s)| <= 2 * |s|
    ensures s != [] ==> WriteReports(r, s)[|WriteReports(r, s)| - 1] == EMPTY_REPORT
    decreases |s|
  {
    if s != [] {
      WriteReportsShape(EMPTY_REPORT, s[1..]);
    }
  }

  /** Pack and Unpack are inverse. */
  lemma PackRoundTrip(m: MediaKeyReport, w: bv16)
    ensures Unpack(Pack(m)) == m
    ensures Pack(Unpack(w)) == w
  {
  }

  /** From the idle media report, volume up sends 0x2000 then 0, and volume down 0x4000 then 0. */
  lemma VolumeFromIdle()
    ensures VolumeReports(NO_MEDIA_KEYS, KEY_MEDIA_VOLUME_UP) == [MediaKeyReport(32, 0), NO_MEDIA_KEYS]
    ensures VolumeReports(NO_MEDIA_KEYS, KEY_MEDIA_VOLUME_DOWN) == [MediaKeyReport(64, 0), NO_MEDIA_KEYS]
  {
  }

  /** A volume action sends the report with the key's bits set, then the
      report it started from with exactly the key's bits cleared: the press
      leaves no trace in the report beyond the key's own bits. */
  lemma VolumeReportsEffect(m: MediaKeyReport, k: MediaKeyReport)
    ensures VolumeReports(m, k) ==
      [Unpack(MediaPress(Pack(m), Pack(k))), Unpack(MediaRelease(Pack(m), Pack(k)))]
  {
    SetThenClear(Pack(m), Pack(k));
  }

  /** Setting bits and then clearing the same bits clears them from the original. */
  lemma SetThenClear(a: bv16, b: bv16)
    ensures (a | b) & !b == a & !b
  {
  }
}
