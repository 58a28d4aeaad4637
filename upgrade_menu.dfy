/** The text of the upgrade menu drawn by Game.draw_upgrade_menu: per key, a label, the
    level clamped to 10, and a cost caption that reads "MAX" at the cap and "$<cost>"
    below it. Geometry and fonts are not modelled. */
module UpgradeMenu {
  import opened Economy

  /** min(level, max_level). */
  function ShownLevel(level: int): (r: int)
    ensures r <= MaxLevel
    ensures r == level || r == MaxLevel
    ensures level <= MaxLevel ==> r == level
  {
    if level <= MaxLevel then level else MaxLevel
  }

  function Digit(d: int): char
    requires 0 <= d < 10
  {
    (48 + d) as char
  }

  function DigitValue(c: char): int
  {
    c as int - 48
  }

  /** str(n) for a natural number: decimal digits, no leading zeros. */
  function NatText(n: nat): (s: string)
    ensures |s| >= 1
    ensures forall i :: 0 <= i < |s| ==> '0' <= s[i] <= '9'
    ensures s[0] == '0' ==> n == 0 && s == "0"
    decreases n
  {
    if n < 10 then [Digit(n)] else NatText(n / 10) + [Digit(n % 10)]
  }

  /** str(n) for any integer. */
  function IntText(n: int): (s: string)
    ensures |s| >= 1
    ensures s[0] == '-' <==> n < 0
  {
    if n < 0 then "-" + NatText(-n) else NatText(n)
  }

  /** Reads a run of decimal digits back. */
  function ParseNat(s: string): int
    decreases |s|
  {
    if |s| == 0 then 0 else 10 * ParseNat(s[..|s| - 1]) + DigitValue(s[|s| - 1])
  }

  /** Formatting is inverted by parsing: the caption shows the cost exactly. */
  lemma {:induction false} ParseNatText(n: nat)
    ensures ParseNat(NatText(n)) == n
    decreases n
  {
    if n >= 10 {
      ParseNatText(n / 10);
      var s := NatText(n);
      assert s[..|s| - 1] == NatText(n / 10);
    }
  }

  /** The cost caption of one slider. */
  function CostText(level: int, cost: int): (text: string)
    ensures text == "MAX" <==> ShownLevel(level) >= MaxLevel
    ensures ShownLevel(level) < MaxLevel ==> text == "$" + IntText(cost)
  {
    if ShownLevel(level) >= MaxLevel then "MAX"
    else
      var t := "$" + IntText(cost);
      assert t[0] != "MAX"[0];
      t
  }

  /** One slider of the menu as text. */
  datatype MenuEntry = MenuEntry(title: string, levelText: string, costText: string)

  /** The sliders in screen order, left to right. */
  const MenuOrder: seq<(string, UpgradeKey)> := [("SPEED", Speed), ("ENEMY SLOW", EnemySlow), ("HEALTH", Health)]

  function EntryFor(l: Ledger, i: nat): MenuEntry
    requires i < |MenuOrder|
  {
    var (title, key) := MenuOrder[i];
    var level := ShownLevel(l.levels.Get(key));
    MenuEntry(title, IntText(level), CostText(level, l.costs.Get(key)))
  }

  /** On a well-formed ledger every slider shows its key's level, and its caption is
      "MAX" exactly when that key is at level 10, the price to pay otherwise. */
  lemma EntryShowsLedger(l: Ledger, i: nat)
    requires WellFormed(l) && i < |MenuOrder|
    ensures var key := MenuOrder[i].1; var e := EntryFor(l, i);
      ParseNat(e.levelText) == l.levels.Get(key) &&
      (e.costText == "MAX" <==> l.levels.Get(key) == MaxLevel) &&
      (l.levels.Get(key) < MaxLevel ==> ParseNat(e.costText[1..]) == l.costs.Get(key))
  {
    var key := MenuOrder[i].1;
    ParseNatText(l.levels.Get(key));
    ParseNatText(l.costs.Get(key));
  }
}
