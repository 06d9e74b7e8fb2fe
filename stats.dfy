/** Stat-point allocation (`Format47Handler`). The five primary stats and
    the cap are taken to be byte fields (their declarations are not part of
    this model), so the `++` on a stat wraps 255 to 0; that wrap is what the
    final "at most zero becomes the cap" rule repairs. */
module Stats {
  import opened Common

  /** The stats the client asks to raise; more than one may be flagged. */
  datatype StatFlags = StatFlags(str: bool, intel: bool, wis: bool, con: bool, dex: bool)

  datatype Attributes = Attributes(str: u8, intel: u8, wis: u8, con: u8, dex: u8)

  /** One stat after the handler: incremented with byte wrap-around when
      flagged, capped at `cap`, and lifted to `cap` when it is zero. */
  function RaiseStat(s: u8, flagged: bool, cap: u8): (r: u8)
    ensures r <= cap
    ensures cap > 0 ==> r > 0
    ensures flagged && s + 1 <= cap ==> r == s + 1
    ensures flagged && s >= cap ==> r == cap
    ensures !flagged && 0 < s <= cap ==> r == s
    ensures !flagged && (s == 0 || s > cap) ==> r == cap
  {
    var incremented := if flagged then ToByte(s + 1) else s;
    var capped := if incremented > cap then cap else incremented;
    if capped <= 0 then cap else capped
  }

  /** Every stat at most the cap, and positive when the cap is. */
  predicate WithinCap(a: Attributes, cap: u8) {
    && a.str <= cap && a.intel <= cap && a.wis <= cap && a.con <= cap && a.dex <= cap
    && (cap > 0 ==> a.str > 0 && a.intel > 0 && a.wis > 0 && a.con > 0 && a.dex > 0)
  }

  function RaiseAll(a: Attributes, f: StatFlags, cap: u8): Attributes {
    Attributes(RaiseStat(a.str, f.str, cap), RaiseStat(a.intel, f.intel, cap), RaiseStat(a.wis, f.wis, cap),
               RaiseStat(a.con, f.con, cap), RaiseStat(a.dex, f.dex, cap))
  }

  /** The unspent points after one request: one fewer for a player who is
      not a game master, never below zero. */
  function SpendPoint(points: int, gameMaster: bool): (r: int)
    ensures r >= 0
    ensures gameMaster && points >= 0 ==> r == points
    ensures !gameMaster && points > 0 ==> r == points - 1
    ensures points <= 0 ==> r == 0
  {
    var spent := if gameMaster then points else points - 1;
    if spent < 0 then 0 else spent
  }

  /** What a stat request does to the attributes and the unspent points:
      nothing at all when no points are left. */
  function Allocate(a: Attributes, points: int, gameMaster: bool, f: StatFlags, cap: u8): (r: (Attributes, int))
    ensures points == 0 ==> r == (a, 0)
    ensures points != 0 ==> WithinCap(r.0, cap) && r.1 >= 0
    ensures points > 0 ==> r.1 == (if gameMaster then points else points - 1)
    ensures points < 0 ==> r.1 == 0
    ensures points != 0 ==>
              && r.0.str == RaiseStat(a.str, f.str, cap) && r.0.intel == RaiseStat(a.intel, f.intel, cap)
              && r.0.wis == RaiseStat(a.wis, f.wis, cap) && r.0.con == RaiseStat(a.con, f.con, cap)
              && r.0.dex == RaiseStat(a.dex, f.dex, cap)
  {
    if points == 0 then (a, points)
    else (RaiseAll(a, f, cap), SpendPoint(points, gameMaster))
  }

  /** After any request with points left, the flagged stats below the cap
      went up by exactly one and the unflagged stats within the cap stayed. */
  lemma AllocateBounds(a: Attributes, points: int, gameMaster: bool, f: StatFlags, cap: u8)
    requires points != 0
    ensures var b := Allocate(a, points, gameMaster, f, cap).0;
            && (f.str && a.str < cap ==> b.str == a.str + 1) && (!f.str && 0 < a.str <= cap ==> b.str == a.str)
            && (f.intel && a.intel < cap ==> b.intel == a.intel + 1) && (!f.intel && 0 < a.intel <= cap ==> b.intel == a.intel)
            && (f.wis && a.wis < cap ==> b.wis == a.wis + 1) && (!f.wis && 0 < a.wis <= cap ==> b.wis == a.wis)
            && (f.con && a.con < cap ==> b.con == a.con + 1) && (!f.con && 0 < a.con <= cap ==> b.con == a.con)
            && (f.dex && a.dex < cap ==> b.dex == a.dex + 1) && (!f.dex && 0 < a.dex <= cap ==> b.dex == a.dex)
  {
  }

  /** Capped stats stay capped: a request raises no stat past the cap, and
      a player at the cap everywhere stays there. */
  lemma CapIsFixedPoint(a: Attributes, f: StatFlags, cap: u8)
    requires cap > 0
    requires a == Attributes(cap, cap, cap, cap, cap)
    ensures RaiseAll(a, f, cap) == a
  {
  }
}
