/**
 * `getUptime`: the time since `uptimeStart` as "<hours>h <minutes>m <seconds>s".
 * The clock reading and the module's load-time `uptimeStart` are parameters;
 * the load-time value is never written after the module loads.
 */
module Helper {
  import opened Wrappers
  import opened JsValues

  datatype UptimeParts = UptimeParts(hours: int, minutes: int, seconds: int)

  /** `Math.floor((now - uptimeStart) / 1000)`: whole seconds elapsed. */
  function ElapsedSeconds(now: int, uptimeStart: int): (s: int)
    ensures 1000 * s <= now - uptimeStart < 1000 * (s + 1)
  {
    FloorDiv(now - uptimeStart, 1000)
  }

  /** The three components `getUptime` computes, including JavaScript's truncating `%`. */
  function Parts(now: int, uptimeStart: int): (p: UptimeParts)
    ensures 3600 * p.hours <= ElapsedSeconds(now, uptimeStart) < 3600 * (p.hours + 1)
    ensures now >= uptimeStart ==> p.hours >= 0 && 0 <= p.minutes < 60 && 0 <= p.seconds < 60
    ensures now >= uptimeStart ==>
      p.hours * 3600 + p.minutes * 60 + p.seconds == ElapsedSeconds(now, uptimeStart)
  {
    var total := ElapsedSeconds(now, uptimeStart);
    var p := UptimeParts(FloorDiv(total, 3600), FloorDiv(Rem(total, 3600), 60), Rem(total, 60));
    if total >= 0 then
      DecomposeSeconds(total);
      p
    else
      p
  }

  /** Whole hours, the minutes left over and the seconds left over add back up. */
  lemma DecomposeSeconds(total: int)
    requires total >= 0
    ensures (total / 3600) * 3600 + ((total % 3600) / 60) * 60 + total % 60 == total
  {
    var h, r := total / 3600, total % 3600;
    var m, s := r / 60, r % 60;
    assert r == 60 * m + s;
    assert total == 60 * (60 * h + m) + s by {
      assert total == 3600 * h + r;
    }
    DivModUnique(total, 60, 60 * h + m, s);
  }

  /** Euclidean quotient and remainder are the only ones with `0 <= r < b`. */
  lemma DivModUnique(a: int, b: int, q: int, r: int)
    requires b > 0 && 0 <= r < b && a == b * q + r
    ensures a / b == q && a % b == r
  {
    var d := q - a / b;
    assert b * d == a % b - r;
  }

  function FormatUptime(p: UptimeParts): string
  {
    IntToString(p.hours) + "h " + IntToString(p.minutes) + "m " + IntToString(p.seconds) + "s"
  }

  /**
   * The reported uptime string: each component written as `String(n)` writes
   * it, and the components can always be read back from it.
   */
  function GetUptime(now: int, uptimeStart: int): (r: string)
    ensures var p := Parts(now, uptimeStart);
      r == IntToString(p.hours) + "h " + IntToString(p.minutes) + "m " + IntToString(p.seconds) + "s"
    ensures ParseUptime(r) == Some(Parts(now, uptimeStart))
  {
    FormatRoundTrip(Parts(now, uptimeStart));
    FormatUptime(Parts(now, uptimeStart))
  }

  /** The index of the first `c` in `s`, or `|s|` when there is none. */
  function IndexOf(s: string, c: char): (i: nat)
    ensures i <= |s|
    ensures i < |s| ==> s[i] == c
    ensures forall j | 0 <= j < i :: s[j] != c
  {
    if s == [] then 0 else if s[0] == c then 0 else 1 + IndexOf(s[1..], c)
  }

  /** Reads an uptime string back into its components. */
  function ParseUptime(t: string): Option<UptimeParts>
  {
    var i := IndexOf(t, 'h');
    if i + 1 < |t| && t[i + 1] == ' ' then
      var rest := t[i + 2..];
      var j := IndexOf(rest, 'm');
      if j + 1 < |rest| && rest[j + 1] == ' ' then
        var tail := rest[j + 2..];
        if |tail| > 0 && tail[|tail| - 1] == 's' then
          Combine(ParseInt(t[..i]), ParseInt(rest[..j]), ParseInt(tail[..|tail| - 1]))
        else None
      else None
    else None
  }

  function Combine(h: Option<int>, m: Option<int>, s: Option<int>): Option<UptimeParts>
  {
    if h.Some? && m.Some? && s.Some? then Some(UptimeParts(h.value, m.value, s.value)) else None
  }

  /** The first `c` in `a + [c] + b` is the one after `a` when `a` holds none. */
  lemma IndexOfAfter(a: string, c: char, b: string)
    requires forall k | 0 <= k < |a| :: a[k] != c
    ensures IndexOf(a + [c] + b, c) == |a|
  {
    assert (a + [c] + b)[|a|] == c;
  }

  /** `a`, a unit letter not in `a`, a space and `b` split back into `a` and `b`. */
  lemma SplitUnit(a: string, c: char, b: string)
    requires forall k | 0 <= k < |a| :: a[k] != c
    ensures var t := a + [c, ' '] + b;
      IndexOf(t, c) == |a| && |a| + 1 < |t| && t[|a| + 1] == ' ' && t[..|a|] == a && t[|a| + 2..] == b
  {
    var t := a + [c, ' '] + b;
    assert t == a + [c] + ([' '] + b);
    IndexOfAfter(a, c, [' '] + b);
    assert t[..|a|] == a;
    assert t[|a| + 2..] == b;
  }

  /** Three number strings separated by the unit letters split back apart. */
  lemma SplitFormatted(h: string, m: string, s: string)
    requires NumberChars(h) && NumberChars(m) && NumberChars(s)
    ensures ParseUptime(h + "h " + m + "m " + s + "s") == Combine(ParseInt(h), ParseInt(m), ParseInt(s))
  {
    var tail := s + "s";
    var rest := m + "m " + tail;
    var t := h + "h " + m + "m " + s + "s";
    assert IndexOf(t, 'h') == |h| && |h| + 1 < |t| && t[|h| + 1] == ' ' && t[..|h|] == h && t[|h| + 2..] == rest by {
      assert t == h + ['h', ' '] + rest;
      assert forall k | 0 <= k < |h| :: h[k] != 'h';
      SplitUnit(h, 'h', rest);
    }
    assert IndexOf(rest, 'm') == |m| && |m| + 1 < |rest| && rest[|m| + 1] == ' ' && rest[..|m|] == m && rest[|m| + 2..] == tail by {
      assert rest == m + ['m', ' '] + tail;
      assert forall k | 0 <= k < |m| :: m[k] != 'm';
      SplitUnit(m, 'm', tail);
    }
    assert |tail| > 0 && tail[|tail| - 1] == 's' && tail[..|tail| - 1] == s;
  }

  lemma FormatRoundTrip(p: UptimeParts)
    ensures ParseUptime(FormatUptime(p)) == Some(p)
  {
    var h, m, s := IntToString(p.hours), IntToString(p.minutes), IntToString(p.seconds);
    SplitFormatted(h, m, s);
  }

  /** A later clock reading never reports fewer elapsed seconds. */
  lemma ElapsedMonotone(uptimeStart: int, now1: int, now2: int)
    requires now1 <= now2
    ensures ElapsedSeconds(now1, uptimeStart) <= ElapsedSeconds(now2, uptimeStart)
  {
  }

  /**
   * When the clock reads earlier than `uptimeStart`, JavaScript's truncating
   * `%` makes every component zero or negative: there is no clamping.
   */
  lemma ClockBeforeStart(now: int, uptimeStart: int)
    requires now < uptimeStart
    ensures Parts(now, uptimeStart).hours < 0
    ensures Parts(now, uptimeStart).minutes <= 0 && Parts(now, uptimeStart).seconds <= 0
  {
  }

  /** One second before the start reads "-1h -1m -1s". */
  lemma OneSecondBeforeStart()
    ensures Parts(0, 1000) == UptimeParts(-1, -1, -1)
  {
  }
}
