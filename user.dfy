// The user collector and reader: `storeUserInfo` turns the login records
// into one text of session lines, sends the session count on the count
// channel and the text as one frame on the user channel; `printUserInfo`
// reads one frame back into a fixed buffer and prints it.
module Users {
  import opened Common
  import opened Channel

  /** One login record: whether it is a `USER_PROCESS` entry, and its user, terminal and host fields. */
  datatype UtmpEntry = UtmpEntry(userProcess: bool, user: seq<Byte>, line: seq<Byte>, host: seq<Byte>)

  /** Size of the per-entry line buffer `buffer[256]`. */
  const LineBuffer := 256

  /** `"%s\t %s (%s)\n"` of one record, cut by `snprintf` to the 256-byte line buffer. */
  function SessionLine(e: UtmpEntry): (r: seq<Byte>)
    ensures |r| <= LineBuffer - 1 && NoNul(r)
  {
    var full := CString(e.user) + "\t " + CString(e.line) + " (" + CString(e.host) + ")\n";
    assert NoNul(full);
    Take(full, LineBuffer - 1)
  }

  /** `strncat(all_users, line, sizeof(all_users) - strlen(all_users) - 1)`: the line cut to the space left. */
  function Accumulate(acc: seq<Byte>, line: seq<Byte>): seq<Byte> {
    acc + Take(line, MaxUserBuffer - 1 - |acc|)
  }

  /** The text accumulated over `entries`: the line of every `USER_PROCESS` record, in order. */
  function UserText(entries: seq<UtmpEntry>): seq<Byte> {
    if entries == [] then []
    else
      var acc := UserText(entries[..|entries| - 1]);
      var e := entries[|entries| - 1];
      if e.userProcess then Accumulate(acc, SessionLine(e)) else acc
  }

  /** `userLine_count`: the number of `USER_PROCESS` records. */
  function SessionCount(entries: seq<UtmpEntry>): (n: nat)
    ensures n <= |entries|
  {
    if entries == [] then 0
    else SessionCount(entries[..|entries| - 1]) + (if entries[|entries| - 1].userProcess then 1 else 0)
  }

  /** The lines of all `USER_PROCESS` records, uncut: the text the buffer would hold if it had no limit. */
  function AllLines(entries: seq<UtmpEntry>): (r: seq<Byte>)
    ensures NoNul(r)
  {
    if entries == [] then []
    else
      var e := entries[|entries| - 1];
      AllLines(entries[..|entries| - 1]) + (if e.userProcess then SessionLine(e) else [])
  }

  lemma AccumulateIsTake(x: seq<Byte>, line: seq<Byte>)
    ensures Accumulate(Take(x, MaxUserBuffer - 1), line) == Take(x + line, MaxUserBuffer - 1)
  {
    if |x| < MaxUserBuffer - 1 {
      var m := MaxUserBuffer - 1 - |x|;
      if |line| > m {
        assert (x + line)[..MaxUserBuffer - 1] == x + line[..m];
      }
    } else {
      assert (x + line)[..MaxUserBuffer - 1] == x[..MaxUserBuffer - 1];
    }
  }

  /**
   * Accumulating with `strncat` keeps exactly the first MAX_USER_BUFFER − 1
   * characters of all the session lines: nothing else is dropped, reordered
   * or added, and the text never outgrows its buffer.
   */
  lemma {:induction false} UserTextIsPrefixOfAllLines(entries: seq<UtmpEntry>)
    ensures UserText(entries) == Take(AllLines(entries), MaxUserBuffer - 1)
    ensures |UserText(entries)| == Min(|AllLines(entries)|, MaxUserBuffer - 1)
    ensures NoNul(UserText(entries))
  {
    if entries != [] {
      var init := entries[..|entries| - 1];
      var e := entries[|entries| - 1];
      UserTextIsPrefixOfAllLines(init);
      if e.userProcess {
        AccumulateIsTake(AllLines(init), SessionLine(e));
      } else {
        assert AllLines(entries) == AllLines(init) + [];
      }
    }
  }

  /** Records other than `USER_PROCESS` neither add text nor count. */
  lemma OtherRecordsIgnored(entries: seq<UtmpEntry>, e: UtmpEntry)
    requires !e.userProcess
    ensures UserText(entries + [e]) == UserText(entries)
    ensures SessionCount(entries + [e]) == SessionCount(entries)
  {
    assert (entries + [e])[..|entries|] == entries;
  }

  /** The count includes every `USER_PROCESS` record, also one whose line was cut away entirely. */
  lemma CountIncludesTruncated(entries: seq<UtmpEntry>, e: UtmpEntry)
    requires e.userProcess && |UserText(entries)| == MaxUserBuffer - 1
    ensures UserText(entries + [e]) == UserText(entries)
    ensures SessionCount(entries + [e]) == SessionCount(entries) + 1
  {
    assert (entries + [e])[..|entries|] == entries;
  }

  /** The scan over the login records: each `USER_PROCESS` line appended within the buffer, and counted. */
  method ScanSessions(entries: seq<UtmpEntry>) returns (allUsers: seq<Byte>, userLineCount: nat)
    ensures allUsers == UserText(entries)
    ensures userLineCount == SessionCount(entries)
  {
    allUsers := [];
    userLineCount := 0;
    var k := 0;
    while k < |entries|
      invariant 0 <= k <= |entries|
      invariant allUsers == UserText(entries[..k])
      invariant userLineCount == SessionCount(entries[..k])
    {
      var utmp := entries[k];
      ghost var upTo := entries[..k + 1];
      assert upTo[..k] == entries[..k] && upTo[k] == utmp;
      if utmp.userProcess {
        var buffer := SessionLine(utmp);
        allUsers := allUsers + Take(buffer, MaxUserBuffer - |allUsers| - 1);
        userLineCount := userLineCount + 1;
      }
      k := k + 1;
    }
    assert entries[..k] == entries;
  }

  /** What the user channel receives when the pipe accepts `w` more writes: the header, then the text and its NUL. */
  function UserFrameWrites(text: seq<Byte>, w: nat): seq<Byte>
    requires |text| < MaxUserBuffer
  {
    if w >= 2 then TextFrame(text) else if w == 1 then SizeHeader(|text| + 1) else []
  }

  /**
   * `storeUserInfo`. On Linux a failed `utmpname` sends nothing at all.
   * Otherwise every record is scanned, the count is written first, and
   * only if that succeeds is the text framed onto the user channel: a
   * header of `strlen + 1` (up to MAX_USER_BUFFER), then the text and its
   * NUL; a failed header write skips the text.
   */
  method StoreUserInfo(linux: bool, utmpnameOk: bool, entries: seq<UtmpEntry>, userPipe: Pipe, countPipe: Pipe)
    requires userPipe != countPipe
    requires |entries| < 0x8000_0000
    modifies userPipe, countPipe
    ensures var text := UserText(entries);
      var attempted := !linux || utmpnameOk;
      var countSent := attempted && old(countPipe.remainingWrites) > 0;
      |text| < MaxUserBuffer
      && countPipe.unread == old(countPipe.unread) + (if countSent then IntBytes(SessionCount(entries)) else [])
      && userPipe.unread == old(userPipe.unread) + (if countSent then UserFrameWrites(text, old(userPipe.remainingWrites)) else [])
  {
    UserTextIsPrefixOfAllLines(entries);
    if linux && !utmpnameOk {
      return;
    }
    var allUsers, userLineCount := ScanSessions(entries);
    var wrote := countPipe.Write(IntBytes(userLineCount));
    if !wrote {
      return;
    }
    SendText(allUsers, userPipe);
  }

  /** The two writes of the user frame: the header `strlen + 1`, then the text and its NUL; a failed header write skips the text. */
  method SendText(text: seq<Byte>, pipe: Pipe)
    requires |text| < MaxUserBuffer
    modifies pipe
    ensures pipe.unread == old(pipe.unread) + UserFrameWrites(text, old(pipe.remainingWrites))
  {
    var len := |text| + 1;
    var wrote := pipe.Write(SizeHeader(len));
    if wrote {
      wrote := pipe.Write(text + [Nul]);
      if wrote {
        AppendAssoc(old(pipe.unread), SizeHeader(len), text + [Nul]);
        assert SizeHeader(len) + (text + [Nul]) == TextFrame(text);
      }
    }
  }

  const SessionsHeading: seq<Byte> := "### Sessions/users ###\n"
  const NoSessions: seq<Byte> := "No active user sessions\n"

  /** What one `printUserInfo` call prints and what it leaves unread. */
  datatype UserReport = UserReport(printed: seq<Byte>, rest: seq<Byte>)

  /**
   * The reader's rule, for a buffer of `bufferSize` bytes: read up to 8
   * header bytes (a short read leaves the missing high bytes zero); no
   * header, or a length above the buffer size, prints the fallback; else
   * read up to `len` bytes and print them up to the first NUL, or the
   * fallback when none arrive.
   */
  function ReadUserFrame(stream: seq<Byte>, bufferSize: nat): UserReport {
    var hdr := Take(stream, SizeOfSizeT);
    var afterHeader := stream[|hdr|..];
    var len := DecodeLE(hdr);
    if |hdr| == 0 || len > bufferSize then UserReport(SessionsHeading + NoSessions, afterHeader)
    else
      var body := Take(afterHeader, len);
      if |body| == 0 then UserReport(SessionsHeading + NoSessions, afterHeader)
      else UserReport(SessionsHeading + CString(body), afterHeader[|body|..])
  }

  /** Where `printUserInfo` as written stores the terminator: `bytesRead`, whenever some body bytes arrived. */
  function TerminatorIndex(stream: seq<Byte>, bufferSize: nat): Option<nat> {
    var hdr := Take(stream, SizeOfSizeT);
    var len := DecodeLE(hdr);
    if |hdr| == 0 || len > bufferSize then None
    else
      var body := Take(stream[|hdr|..], len);
      if |body| == 0 then None else Some(|body|)
  }

  /**
   * As written (`buffer[MAX_USER_BUFFER]`, lengths up to `sizeof(buffer)`
   * accepted), a full frame from the collector, 4095 characters of
   * session text, is accepted and its terminator is stored at index 4096,
   * one past the end of the buffer.
   */
  lemma FullFrameOverrunsBuffer(rest: seq<Byte>)
    ensures var stream := TextFrame(Repeat('a', MaxUserBuffer - 1)) + rest;
      TerminatorIndex(stream, MaxUserBuffer) == Some(MaxUserBuffer)
  {
    FrameParts(Repeat('a', MaxUserBuffer - 1), rest);
  }

  /** The buffer the reader needs: one byte more than the largest length it accepts. */
  const ReaderBuffer := MaxUserBuffer + 1

  /** With the larger buffer the terminator index is always inside it. */
  lemma TerminatorInBounds(stream: seq<Byte>)
    ensures var i := TerminatorIndex(stream, MaxUserBuffer); i.Some? ==> i.value < ReaderBuffer
  {
  }

  /**
   * Every frame the collector can send is read back whole: the reader
   * prints exactly the session text and leaves the rest of the stream
   * unread.
   */
  lemma UserFrameRoundTrip(text: seq<Byte>, rest: seq<Byte>)
    requires |text| < MaxUserBuffer && NoNul(text)
    ensures ReadUserFrame(TextFrame(text) + rest, MaxUserBuffer) == UserReport(SessionsHeading + text, rest)
  {
    FrameParts(text, rest);
    CStringOfTerminated(text, []);
    assert text + [Nul] + [] == text + [Nul];
  }

  /** The collector sends a single frame, so every later read finds the channel empty and prints the fallback. */
  lemma LaterReadsFindNoSessions()
    ensures ReadUserFrame([], MaxUserBuffer) == UserReport(SessionsHeading + NoSessions, [])
  {
  }

  /**
   * `printUserInfo` with the buffer one byte larger than the largest
   * accepted length: reads the header and body from the pipe, stores the
   * body and its terminator in the buffer, and prints up to the first NUL.
   */
  method PrintUserInfo(pipe: Pipe) returns (printed: seq<Byte>)
    modifies pipe
    ensures UserReport(printed, pipe.unread) == ReadUserFrame(old(pipe.unread), MaxUserBuffer)
    ensures pipe.remainingWrites == old(pipe.remainingWrites)
  {
    printed := SessionsHeading;
    var hdr := pipe.Read(SizeOfSizeT);
    var len := DecodeLE(hdr);
    if |hdr| == 0 || len > MaxUserBuffer {
      printed := printed + NoSessions;
      return;
    }
    var body := pipe.Read(len);
    if |body| > 0 {
      var shown := Terminated(body);
      printed := printed + shown;
    } else {
      printed := printed + NoSessions;
    }
  }

  /** Copy the bytes read into the zeroed reader buffer, store the terminator at `bytesRead`, and take the C string there. */
  method Terminated(body: seq<Byte>) returns (shown: seq<Byte>)
    requires 0 < |body| <= MaxUserBuffer
    ensures shown == CString(body)
  {
    var buffer := new Byte[ReaderBuffer](_ => Nul);
    var bytesRead := |body|;
    forall i | 0 <= i < bytesRead {
      buffer[i] := body[i];
    }
    buffer[bytesRead] := Nul;
    CStringBeforeNul(body, buffer[bytesRead + 1..]);
    assert buffer[..] == body + [Nul] + buffer[bytesRead + 1..];
    shown := CString(buffer[..]);
  }
}
