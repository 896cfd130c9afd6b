/** The bounded buffers of the dashboards: a copy of an array gets one new
    entry pushed at the end, and when it then holds more than `cap`
    entries its first (oldest) entry is shifted out. */
module Buffers {

  /** What push-then-shift leaves: `s + [x]`, without its first entry when
      that exceeds `cap`. */
  function Slide<T>(s: seq<T>, x: T, cap: nat): (r: seq<T>)
    requires cap > 0
    ensures |r| > 0 && r[|r| - 1] == x
    ensures r[..|r| - 1] == if |s| < cap then s else s[1..]
    ensures |s| <= cap ==> |r| <= cap
    ensures |s| >= cap ==> |r| == |s|
  {
    var pushed := s + [x];
    assert pushed[..|pushed| - 1] == s;
    if |pushed| > cap then
      assert pushed[1..][..|pushed| - 2] == s[1..];
      pushed[1..]
    else
      pushed
  }

  /** One update of a chart series held as two parallel arrays: push a time label
      and a value, and when the labels then exceed `cap`, shift both. */
  method PushCapped<T>(labels: seq<string>, data: seq<T>, timeLabel: string, value: T, cap: nat)
    returns (newLabels: seq<string>, newData: seq<T>)
    requires cap > 0
    ensures newLabels == Slide(labels, timeLabel, cap)
    ensures |labels| == |data| ==> newData == Slide(data, value, cap)
    ensures |labels| == |data| ==> |newLabels| == |newData|
    ensures |labels| <= cap ==> |newLabels| <= cap
  {
    newLabels := labels + [timeLabel];
    newData := data + [value];
    if |newLabels| > cap {
      newLabels := newLabels[1..];
      newData := newData[1..];
    }
  }
}
