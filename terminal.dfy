/** The terminal log of the lab (app.js: log): timestamped lines, at most
    `Capacity` of them held, the oldest dropped first. */
module Terminal {

  /** The rendered wall-clock time a line is stamped with; where it comes from is not modelled. */
  type Stamp = string

  /** The events the lab writes to its terminal; number formatting is not modelled,
      so an event carries the value it reports. */
  datatype Message =
    | CoreActive                      // the first start-up line
    | Monitoring                      // the second start-up line
    | GeoSynced(temperature: real)    // weather merged
    | SocialSynced(anxiety: real)     // market volatility merged
    | CosmosAligned                   // simulated solar flux set
    | SyncFailed                      // the one line the failure path writes
    | Recalibrating(harmony: real)    // the rare line of a tick

  datatype Line = Line(stamp: Stamp, message: Message)

  /** The number of lines the terminal keeps. */
  const Capacity: nat := 20

  /** The log after one more line: the line goes last, and if that makes more than
      `Capacity` lines, the first one goes. */
  function Logged(lines: seq<Line>, line: Line): (r: seq<Line>)
    ensures |r| > 0 && r[|r| - 1] == line
    ensures |lines| <= Capacity ==> |r| <= Capacity
    ensures |lines| < Capacity ==> r == lines + [line]
    ensures |lines| >= Capacity ==> r == lines[1..] + [line]
  {
    var appended := lines + [line];
    if |appended| > Capacity then appended[1..] else appended
  }

  /** The log after the lines of `news`, one after another. */
  function LogAll(lines: seq<Line>, news: seq<Line>): (r: seq<Line>)
    decreases |news|
  {
    if news == [] then lines else LogAll(Logged(lines, news[0]), news[1..])
  }

  /** The last `Capacity` lines of `s`, or all of them if there are fewer. */
  function Recent(s: seq<Line>): (r: seq<Line>) {
    if |s| <= Capacity then s else s[|s| - Capacity..]
  }

  lemma RecentOfRecent(a: seq<Line>, b: seq<Line>)
    ensures Recent(Recent(a) + b) == Recent(a + b)
  {
    if |a| > Capacity {
      var k := |a| - Capacity;
      assert a + b == a[..k] + (Recent(a) + b);
    }
  }

  lemma LoggedIsRecent(lines: seq<Line>, line: Line)
    requires |lines| <= Capacity
    ensures Logged(lines, line) == Recent(lines + [line])
  {
    if |lines| == Capacity {
      assert (lines + [line])[|lines| + 1 - Capacity..] == lines[1..] + [line];
    }
  }

  /** Starting from a log within capacity, any run of appends holds exactly the
      most recent `Capacity` lines of everything, in order. */
  lemma {:induction false} LogAllKeepsRecent(lines: seq<Line>, news: seq<Line>)
    requires |lines| <= Capacity
    ensures LogAll(lines, news) == Recent(lines + news)
    decreases |news|
  {
    if news == [] {
      assert lines + news == lines;
    } else {
      var grown, rest := lines + [news[0]], news[1..];
      var next := Logged(lines, news[0]);
      calc {
        LogAll(lines, news);
        LogAll(next, rest);
        { LogAllKeepsRecent(next, rest); }
        Recent(next + rest);
        { LoggedIsRecent(lines, news[0]); }
        Recent(Recent(grown) + rest);
        { RecentOfRecent(grown, rest); }
        Recent(grown + rest);
        { assert grown + rest == lines + news; }
        Recent(lines + news);
      }
    }
  }

  /** Logging `a` and then `b` is logging `a + b`. */
  lemma {:induction false} LogAllConcat(lines: seq<Line>, a: seq<Line>, b: seq<Line>)
    ensures LogAll(lines, a + b) == LogAll(LogAll(lines, a), b)
    decreases |a|
  {
    if a == [] {
      assert a + b == b;
    } else {
      assert (a + b)[0] == a[0] && (a + b)[1..] == a[1..] + b;
      LogAllConcat(Logged(lines, a[0]), a[1..], b);
    }
  }

  /** From an empty terminal, 25 lines leave the 6th to the 25th, in order. */
  lemma TwentyFiveLines(news: seq<Line>)
    requires |news| == 25
    ensures LogAll([], news) == news[5..]
  {
    LogAllKeepsRecent([], news);
    assert [] + news == news;
  }
}
