/** Progress events, the per-job pub/sub channel that carries them, and the
    HTTP endpoint the Blender worker derives from the websocket URL. */
module Progress {
  import opened Common

  /** One `report_progress` payload; the timestamp is left out. */
  datatype ProgressEvent = ProgressEvent(jobId: string, stage: string, progress: int, message: string)

  /** The progress values of a sequence of events, in order. */
  function Progresses(events: seq<ProgressEvent>): (r: seq<int>)
    ensures |r| == |events|
    ensures forall i :: 0 <= i < |events| ==> r[i] == events[i].progress
  {
    seq(|events|, i requires 0 <= i < |events| => events[i].progress)
  }

  /** The channel a job's progress is published on. */
  function ChannelFor(jobId: string): string {
    "progress:" + jobId
  }

  /** The position of the first `c` in `s`, if any. */
  function FirstIndexOf(s: string, c: char): (r: Option<nat>)
    ensures r.Some? ==> r.value < |s| && s[r.value] == c && c !in s[..r.value]
    ensures r.None? ==> c !in s
  {
    if s == [] then None
    else if s[0] == c then Some(0)
    else
      match FirstIndexOf(s[1..], c)
      case None => None
      case Some(k) =>
        assert s[..k + 1] == [s[0]] + s[1..][..k];
        Some(k + 1)
  }

  /** `channel.split(':', 1)[1]`: everything after the first colon. `None`
      stands for the `IndexError` Python raises when there is no colon. */
  function JobIdOfChannel(channel: string): (r: Option<string>)
    ensures r.None? <==> ':' !in channel
    ensures r.Some? ==>
      var k := |channel| - |r.value| - 1;
      0 <= k && channel[k] == ':' && ':' !in channel[..k] && channel[k + 1..] == r.value
  {
    match FirstIndexOf(channel, ':')
    case None => None
    case Some(k) => Some(channel[k + 1..])
  }

  /** Splitting the channel at its first colon gives back the job id, also
      when the id itself contains colons. */
  lemma ChannelRoundTrip(jobId: string)
    ensures JobIdOfChannel(ChannelFor(jobId)) == Some(jobId)
  {
    var ch := ChannelFor(jobId);
    assert ch[8] == ':';
    assert ':' !in ch[..8] by { assert ch[..8] == "progress"; }
    assert ch[9..] == jobId;
  }

  /** Whether `pat` occurs anywhere in `s`. */
  predicate Occurs(s: string, pat: string)
    decreases |s|
  {
    |pat| <= |s| && (s[..|pat|] == pat || Occurs(s[1..], pat))
  }

  /** Python's `str.replace(pat, rep)`: every non-overlapping occurrence,
      scanning from the left. */
  function ReplaceAll(s: string, pat: string, rep: string): (r: string)
    requires pat != []
    ensures StartsWith(s, pat) ==> StartsWith(r, rep)
    ensures !Occurs(s, pat) ==> r == s
    decreases |s|
  {
    if |s| < |pat| then s
    else if s[..|pat|] == pat then rep + ReplaceAll(s[|pat|..], pat, rep)
    else
      assert [s[0]] + s[1..] == s;
      [s[0]] + ReplaceAll(s[1..], pat, rep)
  }

  /** The endpoint `report_progress` posts to: a `ws://` URL has every `ws://`
      replaced by `http://` and `/progress` appended; any other URL is used
      as configured. */
  function ProgressUrl(websocketUrl: string): (r: string)
    ensures StartsWith(websocketUrl, "ws://") ==> StartsWith(r, "http://") && EndsWith(r, "/progress")
    ensures !StartsWith(websocketUrl, "ws://") ==> r == websocketUrl
  {
    if StartsWith(websocketUrl, "ws://") then
      var body := ReplaceAll(websocketUrl, "ws://", "http://");
      assert body == "http://" + ReplaceAll(websocketUrl[5..], "ws://", "http://");
      body + "/progress"
    else websocketUrl
  }

  lemma ReplaceAllMatch(s: string, pat: string, rep: string)
    requires pat != [] && |pat| <= |s| && s[..|pat|] == pat
    ensures ReplaceAll(s, pat, rep) == rep + ReplaceAll(s[|pat|..], pat, rep)
  {
  }

  lemma ReplaceAllSkip(s: string, pat: string, rep: string)
    requires pat != [] && |pat| <= |s| && s[..|pat|] != pat
    ensures ReplaceAll(s, pat, rep) == [s[0]] + ReplaceAll(s[1..], pat, rep)
  {
  }

  /** Whether `pat` occurs in `s` at index `j`. */
  predicate MatchesAt(s: string, j: nat, pat: string) {
    j + |pat| <= |s| && s[j..j + |pat|] == pat
  }

  lemma MatchesAtTail(s: string, j: nat, pat: string)
    requires s != []
    ensures MatchesAt(s[1..], j, pat) <==> MatchesAt(s, j + 1, pat)
  {
    if j + 1 + |pat| <= |s| {
      assert s[1..][j..j + |pat|] == s[j + 1..j + 1 + |pat|];
    }
  }

  /** `Occurs` and `MatchesAt` are the same notion of occurrence. */
  lemma {:induction false} OccursIffMatchesAt(s: string, pat: string)
    requires pat != []
    ensures Occurs(s, pat) <==> exists j: nat :: MatchesAt(s, j, pat)
    decreases |s|
  {
    if |s| < |pat| {
      assert forall j: nat :: !MatchesAt(s, j, pat);
    } else if s[..|pat|] == pat {
      assert MatchesAt(s, 0, pat);
    } else {
      OccursIffMatchesAt(s[1..], pat);
      if Occurs(s[1..], pat) {
        var j: nat :| MatchesAt(s[1..], j, pat);
        MatchesAtTail(s, j, pat);
      }
      if exists j: nat :: MatchesAt(s, j, pat) {
        var j: nat :| MatchesAt(s, j, pat);
        assert j != 0;
        MatchesAtTail(s, j - 1, pat);
      }
    }
  }

  /** `str.replace` keeps a prefix in which `pat` starts nowhere. */
  lemma {:induction false} SkipPrefix(s: string, k: nat, pat: string, rep: string)
    requires pat != [] && k + |pat| <= |s|
    requires forall j: nat :: j < k ==> !MatchesAt(s, j, pat)
    ensures ReplaceAll(s, pat, rep) == s[..k] + ReplaceAll(s[k..], pat, rep)
    decreases k
  {
    if k == 0 {
      assert s[..0] + ReplaceAll(s[0..], pat, rep) == ReplaceAll(s, pat, rep);
    } else {
      SkipPrefix(s, k - 1, pat, rep);
      var w := s[k - 1..];
      assert !MatchesAt(s, k - 1, pat);
      assert w[..|pat|] == s[k - 1..k - 1 + |pat|];
      ReplaceAllSkip(w, pat, rep);
      assert w[1..] == s[k..];
      Reassemble(s, k, ReplaceAll(s, pat, rep), ReplaceAll(w, pat, rep), ReplaceAll(s[k..], pat, rep));
    }
  }

  lemma Reassemble(s: string, k: nat, whole: string, mid: string, rest: string)
    requires 1 <= k <= |s|
    requires whole == s[..k - 1] + mid && mid == [s[k - 1]] + rest
    ensures whole == s[..k] + rest
  {
    assert s[..k - 1] + [s[k - 1]] == s[..k];
  }

  /** `str.replace` at the first occurrence of `pat`, found at `k`: the text
      before it is kept, the occurrence becomes `rep`, and the scan resumes
      after it. Applied repeatedly, this rewrites every non-overlapping
      occurrence from the left. */
  lemma ReplaceAllAt(s: string, k: nat, pat: string, rep: string)
    requires pat != [] && MatchesAt(s, k, pat)
    requires forall j: nat :: j < k ==> !MatchesAt(s, j, pat)
    ensures ReplaceAll(s, pat, rep) == s[..k] + rep + ReplaceAll(s[k + |pat|..], pat, rep)
  {
    SkipPrefix(s, k, pat, rep);
    var w := s[k..];
    assert w[..|pat|] == pat;
    ReplaceAllMatch(w, pat, rep);
    var u, v := w[|pat|..], s[k + |pat|..];
    assert u == v;
    var rest := ReplaceAll(v, pat, rep);
    assert ReplaceAll(w, pat, rep) == rep + rest;
    assert s[..k] + (rep + rest) == s[..k] + rep + rest;
  }

  /** With a single leading `ws://`, the rest of the URL is kept verbatim. */
  lemma ProgressUrlOfHost(host: string)
    requires !Occurs(host, "ws://")
    ensures ProgressUrl("ws://" + host) == "http://" + host + "/progress"
  {
    var url := "ws://" + host;
    assert url[..5] == "ws://" && url[5..] == host;
  }
}
