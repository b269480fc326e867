/** The console side of a `telnetlib.Telnet` connection, as the VyOS dialogues use
    it: `write`, `read_until`, `expect` and the `close` the `with` block runs.
    The console is an oracle: what it prints during each successive wait is fixed
    when the connection opens, and a wait whose text never shows the awaited
    pattern is a timeout. */
module Telnet {
  import opened PyErrors

  /** What the console prints while one wait is pending: some text, or nothing
      before the timeout. */
  datatype Reply = Output(text: string) | Silence

  /** The patterns the dialogues wait for: a regular expression without
      metacharacters (its escaped `?`, `(`, `)`, `$` stand for themselves), or the
      md5sum line `[0-9a-f]{32}  config.sh`. */
  datatype Pattern = Literal(text: string) | DigestLine

  /** The reply to the `k`-th wait (counting from 0); silence once the oracle is
      exhausted. */
  function ReplyAt(console: seq<Reply>, k: nat): Reply
  {
    if k < |console| then console[k] else Silence
  }

  predicate IsLowerHexDigit(c: char)
  {
    ('0' <= c <= '9') || ('a' <= c <= 'f')
  }

  /** A text the md5sum pattern matches: 32 lower-case hexadecimal digits, two
      spaces, then `config.sh` whose `.` stands for any character but a line
      break. */
  predicate IsDigestLine(w: string)
  {
    && |w| == 43
    && (forall i :: 0 <= i < 32 ==> IsLowerHexDigit(w[i]))
    && w[32..40] == "  config" && w[40] != '\n' && w[41..] == "sh"
  }

  /** Every match of a pattern has the same length. */
  function Width(p: Pattern): nat
  {
    match p
    case Literal(t) => |t|
    case DigestLine => 43
  }

  predicate MatchesAt(p: Pattern, text: string, k: nat)
    requires k + Width(p) <= |text|
  {
    var w := text[k..k + Width(p)];
    match p
    case Literal(t) => w == t
    case DigestLine => IsDigestLine(w)
  }

  /** `re.search` from position `k`: the leftmost position at or after `k` where
      the pattern matches. */
  function SearchFrom(p: Pattern, text: string, k: nat): (r: Option<nat>)
    requires k <= |text|
    ensures r.Some? ==> k <= r.value && r.value + Width(p) <= |text| && MatchesAt(p, text, r.value)
    ensures forall j :: k <= j && j + Width(p) <= |text| && (r.None? || j < r.value) ==> !MatchesAt(p, text, j)
    decreases |text| - k
  {
    if k + Width(p) > |text| then None
    else if MatchesAt(p, text, k) then Some(k)
    else SearchFrom(p, text, k + 1)
  }

  /** Where the pattern first occurs in what the console printed; a silent
      console shows nothing. */
  function Search(p: Pattern, r: Reply): Option<nat>
  {
    match r
    case Silence => None
    case Output(text) => SearchFrom(p, text, 0)
  }

  /** The text a match covers: the literal itself, or a line of the md5sum
      shape. */
  function Matched(p: Pattern, r: Reply): (m: Option<string>)
    ensures m.Some? <==> Search(p, r).Some?
    ensures m.Some? ==> match p
                        case Literal(t) => m.value == t
                        case DigestLine => IsDigestLine(m.value)
  {
    match Search(p, r)
    case None => None
    case Some(k) => Some(r.text[k..k + Width(p)])
  }

  /** What `read_until(marker)` hands back: the text up to and including the
      first marker, or all of it when the marker never comes. */
  function UpToMarker(marker: string, r: Reply): (out: string)
    ensures Search(Literal(marker), r).Some? ==> |marker| <= |out| && out[|out| - |marker|..] == marker
  {
    match r
    case Silence => ""
    case Output(text) =>
      match SearchFrom(Literal(marker), text, 0)
      case None => text
      case Some(k) => text[..k + |marker|]
  }

  /** One exchange of a scripted dialogue: send a line, then wait in turn for
      each of the patterns, ignoring what the waits find. */
  datatype Exchange = Exchange(line: string, awaits: seq<Pattern>)

  /** The lines a script sends, in order. */
  function Lines(script: seq<Exchange>): (lines: seq<string>)
    ensures |lines| == |script|
  {
    seq(|script|, k requires 0 <= k < |script| => script[k].line)
  }

  /** The number of waits a script makes. */
  function WaitCount(script: seq<Exchange>): nat
  {
    if |script| == 0 then 0 else WaitCount(script[..|script| - 1]) + |script[|script| - 1].awaits|
  }

  /** A script whose every exchange waits once makes one wait per line. */
  lemma {:induction false} WaitCountSingle(script: seq<Exchange>)
    requires forall k :: 0 <= k < |script| ==> |script[k].awaits| == 1
    ensures WaitCount(script) == |script|
    decreases |script|
  {
    if |script| > 0 {
      WaitCountSingle(script[..|script| - 1]);
    }
  }

  /** An open `Telnet` connection to a node console. */
  class Session {
    /** What the console prints during each successive wait. */
    const console: seq<Reply>
    /** Number of waits (`read_until`, `expect`) made so far. */
    var waits: nat
    /** Everything sent with `write`, one entry per call. */
    var written: seq<string>
    var isOpen: bool

    constructor (console: seq<Reply>)
      ensures this.console == console && waits == 0 && written == [] && isOpen
    {
      this.console := console;
      waits := 0;
      written := [];
      isOpen := true;
    }

    /** The reply the next wait will see. */
    function Pending(): Reply
      reads this
    {
      ReplyAt(console, waits)
    }

    /** `tn.write(line)`. */
    method Write(line: string)
      requires isOpen
      modifies this`written
      ensures written == old(written) + [line]
    {
      written := written + [line];
    }

    /** `tn.read_until(marker)`, which waits without a timeout. */
    method ReadUntil(marker: string) returns (out: string)
      requires isOpen
      modifies this`waits
      ensures waits == old(waits) + 1
      ensures out == UpToMarker(marker, old(Pending()))
    {
      out := UpToMarker(marker, Pending());
      waits := waits + 1;
    }

    /** `tn.expect([p], timeout)`: index 0 and the matched text when the pattern
        shows up before the timeout, index -1 and no match otherwise. */
    method Expect(p: Pattern) returns (index: int, found: Option<string>)
      requires isOpen
      modifies this`waits
      ensures waits == old(waits) + 1
      ensures index == -1 <==> Search(p, old(Pending())).None?
      ensures index == -1 || index == 0
      ensures found == Matched(p, old(Pending()))
    {
      found := Matched(p, Pending());
      index := if found.None? then -1 else 0;
      waits := waits + 1;
    }

    /** A run of `write` and `expect` calls in the order the script gives, none of
        whose results is looked at. */
    method Run(script: seq<Exchange>)
      requires isOpen
      modifies this`written, this`waits
      ensures written == old(written) + Lines(script)
      ensures waits == old(waits) + WaitCount(script)
    {
      var i := 0;
      while i < |script|
        invariant 0 <= i <= |script|
        invariant written == old(written) + Lines(script[..i])
        invariant waits == old(waits) + WaitCount(script[..i])
      {
        Write(script[i].line);
        var awaits := script[i].awaits;
        var j := 0;
        while j < |awaits|
          invariant 0 <= j <= |awaits|
          invariant written == old(written) + Lines(script[..i + 1])
          invariant waits == old(waits) + WaitCount(script[..i]) + j
        {
          var index, found := Expect(awaits[j]);
          j := j + 1;
        }
        assert script[..i + 1][..i] == script[..i];
        i := i + 1;
      }
      assert script[..i] == script;
    }

    /** `tn.close()`, run when the `with` block is left. */
    method Close()
      modifies this`isOpen
      ensures !isOpen
    {
      isOpen := false;
    }
  }
}
