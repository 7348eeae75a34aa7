/** The two text helpers of the node client: `shortenAddress` and `getTimeAgo`. */
module Format {
  import opened Numeric
  import opened Seqs

  /** `s.slice(start)`: a negative `start` counts from the back. */
  function SliceFrom<T>(s: seq<T>, start: int): (r: seq<T>)
    ensures |r| <= |s| && r == s[|s| - |r|..]
    ensures start >= 0 ==> |r| == if start < |s| then |s| - start else 0
    ensures start < 0 ==> |r| == if -start < |s| then -start else |s|
  {
    if start >= 0 then (if start < |s| then s[start..] else [])
    else (if |s| + start > 0 then s[|s| + start..] else s)
  }

  /**
    * `shortenAddress(address, chars)`: empty stays empty, a string of at most `2·chars + 3`
    * characters is kept, and a longer one keeps its first and last `chars` around "...".
    */
  function ShortenAddress(address: string, chars: int): (r: string)
    ensures address == "" ==> r == ""
    ensures |address| <= 2 * chars + 3 ==> r == address
    ensures chars >= 1 && |address| > 2 * chars + 3 ==>
      |r| == 2 * chars + 3 && r == address[..chars] + "..." + address[|address| - chars..]
  {
    if address == "" then ""
    else if |address| <= chars * 2 + 3 then address
    else SliceTo(address, chars) + "..." + SliceFrom(address, -chars)
  }

  /** With a positive width the result is never longer than the input and keeps both ends. */
  lemma ShortenAddressKeepsEnds(address: string, chars: int)
    requires chars >= 1
    ensures var r := ShortenAddress(address, chars);
      && |r| <= |address|
      && (r != address ==> r[..chars] == address[..chars] && r[chars..chars + 3] == "..."
                           && r[|r| - chars..] == address[|address| - chars..])
  {
    var r := ShortenAddress(address, chars);
    if |address| > 2 * chars + 3 {
      var head := address[..chars];
      var tail := address[|address| - chars..];
      assert r == head + "..." + tail;
      assert r[..chars] == head;
      assert r[chars..chars + 3] == "...";
      assert r[|r| - chars..] == tail;
    }
  }

  const MsPerSecond: int := 1000
  const MsPerMinute: int := 60000
  const MsPerHour: int := 3600000
  const MsPerDay: int := 86400000

  /**
    * `getTimeAgo`: the time elapsed from `time` to `now` (both in ms) in the largest unit that
    * is at least one, days, hours or minutes, each rounded down, and otherwise in seconds.
    */
  function TimeAgo(time: int, now: int): (r: string)
    ensures var d := now - time;
      && (d >= MsPerDay ==> r == ShowInt(d / MsPerDay) + "d ago")
      && (MsPerHour <= d < MsPerDay ==> r == ShowInt(d / MsPerHour) + "h ago")
      && (MsPerMinute <= d < MsPerHour ==> r == ShowInt(d / MsPerMinute) + "m ago")
      && (d < MsPerMinute ==> r == ShowInt(d / MsPerSecond) + "s ago")
  {
    var diff := now - time;
    var seconds := diff / 1000;
    var minutes := seconds / 60;
    var hours := minutes / 60;
    var days := hours / 24;
    NestedFloors(diff);
    if days > 0 then ShowInt(days) + "d ago"
    else if hours > 0 then ShowInt(hours) + "h ago"
    else if minutes > 0 then ShowInt(minutes) + "m ago"
    else ShowInt(seconds) + "s ago"
  }

  /** Rounding down step by step is rounding down once by the product. */
  lemma NestedFloors(d: int)
    ensures d / 1000 / 60 == d / MsPerMinute
    ensures d / 1000 / 60 / 60 == d / MsPerHour
    ensures d / 1000 / 60 / 60 / 24 == d / MsPerDay
  {
    var s := d / 1000;
    var m := s / 60;
    var h := m / 60;
    var days := h / 24;
    assert 1000 * s <= d < 1000 * s + 1000;
    assert 60 * m <= s < 60 * m + 60;
    assert 60000 * m <= d < 60000 * m + 60000;
    assert 60 * h <= m < 60 * h + 60;
    assert 3600000 * h <= d < 3600000 * h + 3600000;
    assert 24 * days <= h < 24 * days + 24;
    assert 86400000 * days <= d < 86400000 * days + 86400000;
  }
}
