/**
 * Extraction of the public tunnel URL from the tunnel binary's stderr:
 * the search for https://[a-z0-9-]+\.trycloudflare\.com in one line, and the
 * read loop of _start_tunnel that waits for the first line containing such a
 * URL, gives up when the stream ends, and times out after 30 seconds.
 * Time is counted in milliseconds from the start of the wait.
 */
module TunnelUrl {
  import opened Wrappers

  const Scheme := "https://"
  const Suffix := ".trycloudflare.com"

  predicate IsLabelChar(c: char) { 'a' <= c <= 'z' || '0' <= c <= '9' || c == '-' }

  /** u is a whole match of the pattern https://[a-z0-9-]+\.trycloudflare\.com. */
  predicate IsTunnelUrl(u: string)
  {
    |u| > |Scheme| + |Suffix| && u[..|Scheme|] == Scheme && u[|u| - |Suffix|..] == Suffix
    && forall i :: |Scheme| <= i < |u| - |Suffix| ==> IsLabelChar(u[i])
  }

  /** The pattern matches u at position p of line. */
  predicate MatchesAt(line: string, p: nat, u: string)
  {
    p + |u| <= |line| && line[p..p + |u|] == u && IsTunnelUrl(u)
  }

  /** The length of the run of label characters starting at i. */
  function LabelRun(line: string, i: nat): (n: nat)
    requires i <= |line|
    ensures i + n <= |line|
    ensures forall k :: i <= k < i + n ==> IsLabelChar(line[k])
    ensures i + n == |line| || !IsLabelChar(line[i + n])
    decreases |line| - i
  {
    if i == |line| || !IsLabelChar(line[i]) then 0 else 1 + LabelRun(line, i + 1)
  }

  /** What the regular expression matches when it is tried at position p (the label is greedy). */
  function UrlAt(line: string, p: nat): Option<string>
    requires p <= |line|
  {
    if p + |Scheme| <= |line| && line[p..p + |Scheme|] == Scheme then
      var e := p + |Scheme| + LabelRun(line, p + |Scheme|);
      if e > p + |Scheme| && e + |Suffix| <= |line| && line[e..e + |Suffix|] == Suffix
      then Some(line[p..e + |Suffix|])
      else None
    else None
  }

  /** re.search: the match at the leftmost position where there is one. */
  function SearchFrom(line: string, p: nat): Option<string>
    requires p <= |line|
    decreases |line| - p
  {
    match UrlAt(line, p)
    case Some(u) => Some(u)
    case None => if p == |line| then None else SearchFrom(line, p + 1)
  }

  function Search(line: string): Option<string>
  {
    SearchFrom(line, 0)
  }

  lemma {:induction false} LabelRunExact(line: string, i: nat, m: nat)
    requires i + m <= |line|
    requires forall k :: i <= k < i + m ==> IsLabelChar(line[k])
    requires i + m == |line| || !IsLabelChar(line[i + m])
    ensures LabelRun(line, i) == m
    decreases m
  {
    if m > 0 {
      LabelRunExact(line, i + 1, m - 1);
    }
  }

  lemma UrlAtSound(line: string, p: nat, u: string)
    requires p <= |line| && UrlAt(line, p) == Some(u)
    ensures MatchesAt(line, p, u)
  {
    var s := p + |Scheme|;
    var e := s + LabelRun(line, s);
    assert u == line[p..e + |Suffix|];
    assert u[..|Scheme|] == line[p..s];
    assert u[|u| - |Suffix|..] == line[e..e + |Suffix|];
    forall i | |Scheme| <= i < |u| - |Suffix| ensures IsLabelChar(u[i]) {
      assert u[i] == line[p + i];
    }
  }

  lemma UrlAtComplete(line: string, p: nat, u: string)
    requires MatchesAt(line, p, u)
    ensures UrlAt(line, p) == Some(u)
  {
    var s := p + |Scheme|;
    var e := p + |u| - |Suffix|;
    assert line[p..s] == u[..|Scheme|];
    forall k | s <= k < e ensures IsLabelChar(line[k]) {
      assert line[k] == u[k - p];
    }
    assert line[e..e + |Suffix|] == u[|u| - |Suffix|..];
    assert line[e] == '.';
    LabelRunExact(line, s, e - s);
  }

  /** The greedy attempt at p matches exactly the tunnel URLs that occur at p. */
  lemma UrlAtIsMatch(line: string, p: nat, u: string)
    requires p <= |line|
    ensures UrlAt(line, p) == Some(u) <==> MatchesAt(line, p, u)
  {
    if UrlAt(line, p) == Some(u) {
      UrlAtSound(line, p, u);
    }
    if MatchesAt(line, p, u) {
      UrlAtComplete(line, p, u);
    }
  }

  /** The search result is the match at the leftmost position where the pattern matches. */
  lemma {:induction false} SearchFromLeftmost(line: string, p: nat, q: nat, u: string)
    requires p <= q <= |line|
    requires UrlAt(line, q) == Some(u)
    requires forall r :: p <= r < q ==> UrlAt(line, r) == None
    ensures SearchFrom(line, p) == Some(u)
    decreases q - p
  {
    if p < q {
      SearchFromLeftmost(line, p + 1, q, u);
    }
  }

  lemma {:induction false} SearchFromNone(line: string, p: nat)
    requires p <= |line|
    requires forall r :: p <= r <= |line| ==> UrlAt(line, r) == None
    ensures SearchFrom(line, p) == None
    decreases |line| - p
  {
    if p < |line| {
      SearchFromNone(line, p + 1);
    }
  }

  lemma {:induction false} SearchFromSound(line: string, p: nat, u: string)
    requires p <= |line|
    requires SearchFrom(line, p) == Some(u)
    ensures exists q :: p <= q <= |line| && UrlAt(line, q) == Some(u)
                        && forall r :: p <= r < q ==> UrlAt(line, r) == None
    decreases |line| - p
  {
    if UrlAt(line, p).None? {
      assert p < |line| && SearchFrom(line, p + 1) == Some(u);
      SearchFromSound(line, p + 1, u);
      var q :| p + 1 <= q <= |line| && UrlAt(line, q) == Some(u)
               && forall r :: p + 1 <= r < q ==> UrlAt(line, r) == None;
      assert forall r :: p <= r < q ==> UrlAt(line, r) == None;
    } else {
      assert UrlAt(line, p) == Some(u);
    }
  }

  /**
   * Search finds u exactly when u matches at some position q and the pattern
   * matches nowhere before q: the recorded URL is the leftmost match.
   */
  lemma SearchIsLeftmostMatch(line: string, u: string)
    ensures Search(line) == Some(u) <==>
      exists q :: 0 <= q <= |line| && MatchesAt(line, q, u)
                  && forall r, v :: 0 <= r < q ==> !MatchesAt(line, r, v)
  {
    if Search(line) == Some(u) {
      SearchFromSound(line, 0, u);
      var q :| 0 <= q <= |line| && UrlAt(line, q) == Some(u)
               && forall r :: 0 <= r < q ==> UrlAt(line, r) == None;
      UrlAtIsMatch(line, q, u);
      forall r, v | 0 <= r < q ensures !MatchesAt(line, r, v) {
        UrlAtIsMatch(line, r, v);
      }
    }
    if exists q :: 0 <= q <= |line| && MatchesAt(line, q, u)
                   && forall r, v :: 0 <= r < q ==> !MatchesAt(line, r, v) {
      var q :| 0 <= q <= |line| && MatchesAt(line, q, u)
               && forall r, v :: 0 <= r < q ==> !MatchesAt(line, r, v);
      UrlAtIsMatch(line, q, u);
      forall r | 0 <= r < q ensures UrlAt(line, r) == None {
        if UrlAt(line, r).Some? {
          UrlAtIsMatch(line, r, UrlAt(line, r).value);
        }
      }
      SearchFromLeftmost(line, 0, q, u);
    }
  }

  /** A line without any tunnel URL in it is skipped. */
  lemma SearchNoneIffNoMatch(line: string)
    ensures Search(line) == None <==> forall q, v :: !MatchesAt(line, q, v)
  {
    if Search(line) == None {
      forall q, v ensures !MatchesAt(line, q, v) {
        if MatchesAt(line, q, v) {
          UrlAtIsMatch(line, q, v);
          var q' :| 0 <= q' <= q && UrlAt(line, q').Some? && forall r :: 0 <= r < q' ==> UrlAt(line, r) == None
            by { LeftmostExists(line, q); }
          SearchFromLeftmost(line, 0, q', UrlAt(line, q').value);
        }
      }
    } else {
      var u := Search(line).value;
      SearchIsLeftmostMatch(line, u);
    }
    if forall q, v :: !MatchesAt(line, q, v) {
      forall r | 0 <= r <= |line| ensures UrlAt(line, r) == None {
        if UrlAt(line, r).Some? {
          UrlAtIsMatch(line, r, UrlAt(line, r).value);
        }
      }
      SearchFromNone(line, 0);
    }
  }

  lemma {:induction false} LeftmostExists(line: string, q: nat)
    requires q <= |line| && UrlAt(line, q).Some?
    ensures exists q' :: 0 <= q' <= q && UrlAt(line, q').Some? && forall r :: 0 <= r < q' ==> UrlAt(line, r) == None
    decreases q
  {
    if forall r :: 0 <= r < q ==> UrlAt(line, r) == None {
    } else {
      var r :| 0 <= r < q && UrlAt(line, r).Some?;
      LeftmostExists(line, r);
    }
  }

  // ---- the read loop ----

  const StartupTimeoutMs := 30000
  const ReadTimeoutMs := 1000

  /** What one readline() of the stderr pipe yields, waited for at most ReadTimeoutMs. */
  datatype ReadEvent =
    | Line(text: string, tookMs: nat)     // a line arrived after tookMs
    | ReadTimeout                         // nothing within ReadTimeoutMs
    | Eof(stderr: string, exitCode: int)  // end of stream; communicate() then yields the rest of stderr and the exit code

  datatype ScanOutcome =
    | Found(url: string, atMs: nat)
    | StreamClosed(stderr: string, exitCode: int)
    | TimedOut

  function Cost(e: ReadEvent): nat
  {
    match e
    case Line(_, t) => t
    case ReadTimeout => ReadTimeoutMs
    case Eof(_, _) => 0
  }

  function TotalCost(evs: seq<ReadEvent>): nat
  {
    if evs == [] then 0 else Cost(evs[0]) + TotalCost(evs[1..])
  }

  /** An event that ends the wait: the end of the stream or a line with a URL in it. */
  predicate Decisive(e: ReadEvent)
  {
    e.Eof? || (e.Line? && Search(e.text).Some?)
  }

  /** How a decisive event ends the wait when it is read at time t. */
  function Settle(e: ReadEvent, t: nat): ScanOutcome
    requires Decisive(e)
  {
    match e
    case Eof(err, code) => StreamClosed(err, code)
    case Line(text, took) => Found(Search(text).value, t + took)
  }

  /**
   * The wait loop of _start_tunnel over the events still to come, elapsed ms
   * into the wait. Once the events run out the stream stays silent, so every
   * further read times out.
   */
  function Scan(evs: seq<ReadEvent>, elapsed: nat): ScanOutcome
    decreases |evs|, StartupTimeoutMs - elapsed + ReadTimeoutMs
  {
    if elapsed > StartupTimeoutMs then TimedOut
    else if evs == [] then Scan([], elapsed + ReadTimeoutMs)
    else match evs[0]
      case ReadTimeout => Scan(evs[1..], elapsed + ReadTimeoutMs)
      case Eof(err, code) => StreamClosed(err, code)
      case Line(text, took) =>
        match Search(text)
        case Some(u) => Found(u, elapsed + took)
        case None => Scan(evs[1..], elapsed + took)
  }

  /** The loop itself: check the clock, read one line, look for the URL. */
  method ScanForUrl(evs: seq<ReadEvent>) returns (o: ScanOutcome)
    ensures o == Scan(evs, 0)
  {
    var elapsed: nat := 0;
    var i := 0;
    while true
      invariant i <= |evs|
      invariant Scan(evs[i..], elapsed) == Scan(evs, 0)
      decreases |evs| - i, StartupTimeoutMs - elapsed + ReadTimeoutMs
    {
      if elapsed > StartupTimeoutMs {
        return TimedOut;
      }
      if i == |evs| {
        elapsed := elapsed + ReadTimeoutMs;
        continue;
      }
      assert evs[i..][0] == evs[i] && evs[i..][1..] == evs[i + 1..];
      match evs[i] {
        case ReadTimeout =>
          elapsed := elapsed + ReadTimeoutMs;
        case Eof(err, code) =>
          return StreamClosed(err, code);
        case Line(text, took) =>
          elapsed := elapsed + took;
          var m := Search(text);
          if m.Some? {
            return Found(m.value, elapsed);
          }
      }
      i := i + 1;
    }
  }

  /**
   * The wait is decided by the first decisive event: its outcome, unless
   * the 30 seconds ran out before it was read.
   */
  lemma {:induction false} ScanFirstDecisive(evs: seq<ReadEvent>, elapsed: nat, i: nat)
    requires i < |evs| && Decisive(evs[i])
    requires forall j :: 0 <= j < i ==> !Decisive(evs[j])
    ensures Scan(evs, elapsed) ==
      if elapsed + TotalCost(evs[..i]) <= StartupTimeoutMs
      then Settle(evs[i], elapsed + TotalCost(evs[..i]))
      else TimedOut
    decreases i
  {
    if elapsed > StartupTimeoutMs {
    } else if i == 0 {
      assert evs[..i] == [];
    } else {
      assert evs[..i][1..] == evs[1..][..i - 1];
      ScanFirstDecisive(evs[1..], elapsed + Cost(evs[0]), i - 1);
    }
  }

  lemma {:induction false} SilenceTimesOut(elapsed: nat)
    ensures Scan([], elapsed) == TimedOut
    decreases StartupTimeoutMs - elapsed + ReadTimeoutMs
  {
    if elapsed <= StartupTimeoutMs {
      SilenceTimesOut(elapsed + ReadTimeoutMs);
    }
  }

  /** Without a URL line and without the end of the stream, the wait times out. */
  lemma {:induction false} ScanWithoutDecisiveTimesOut(evs: seq<ReadEvent>, elapsed: nat)
    requires forall j :: 0 <= j < |evs| ==> !Decisive(evs[j])
    ensures Scan(evs, elapsed) == TimedOut
    decreases |evs|
  {
    if elapsed > StartupTimeoutMs {
    } else if evs == [] {
      SilenceTimesOut(elapsed);
    } else {
      ScanWithoutDecisiveTimesOut(evs[1..], elapsed + Cost(evs[0]));
    }
  }

  /** A URL the wait reports is a tunnel URL taken from a line that was read. */
  lemma {:induction false} ScanFoundFromLine(evs: seq<ReadEvent>, elapsed: nat)
    requires Scan(evs, elapsed).Found?
    ensures IsTunnelUrl(Scan(evs, elapsed).url)
    ensures exists i :: 0 <= i < |evs| && evs[i].Line? && Search(evs[i].text) == Some(Scan(evs, elapsed).url)
    decreases |evs|, StartupTimeoutMs - elapsed + ReadTimeoutMs
  {
    var u := Scan(evs, elapsed).url;
    if evs == [] {
      ScanFoundFromLine(evs, elapsed + ReadTimeoutMs);
    } else if evs[0].Line? && Search(evs[0].text).Some? {
      SearchIsLeftmostMatch(evs[0].text, u);
    } else {
      ScanFoundFromLine(evs[1..], elapsed + Cost(evs[0]));
      var i :| 0 <= i < |evs[1..]| && evs[1..][i].Line? && Search(evs[1..][i].text) == Some(u);
      assert evs[i + 1] == evs[1..][i];
    }
  }
}
