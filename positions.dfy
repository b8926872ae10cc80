/**
 * The nine overlay anchors and the `x:y` expressions ffmpeg receives for them
 * (the `POSITIONS` table of bot.py). Unknown keys fall back to the centre.
 */
module Positions {
  import opened Strings

  /** The anchor keys: top/middle/bottom by left/centre/right. */
  const Keys: seq<string> := ["tl", "tc", "tr", "ml", "mc", "mr", "bl", "bc", "br"]

  const Table: map<string, string> := map[
    "tl" := "10:10",
    "tc" := "(w-text_w)/2:10",
    "tr" := "main_w-text_w-10:10",
    "ml" := "10:(h-text_h)/2",
    "mc" := "(w-text_w)/2:(h-text_h)/2",
    "mr" := "main_w-text_w-10:(h-text_h)/2",
    "bl" := "10:main_h-text_h-10",
    "bc" := "(w-text_w)/2:main_h-text_h-10",
    "br" := "main_w-text_w-10:main_h-text_h-10"
  ]

  /** POSITIONS.get(key, POSITIONS["mc"]) */
  function Lookup(key: string): string
  {
    if key in Table then Table[key] else Table["mc"]
  }

  /**
   * The x and y expressions of a position for drawtext: split at the first
   * colon, or the whole string as x with y = "10" when there is no colon.
   */
  function XY(position: string): (string, string)
  {
    if ':' in position then SplitFirst(position, ':') else (position, "10")
  }

  /** The table has exactly the nine anchor keys. */
  lemma TableKeys()
    ensures Table.Keys == set k | k in Keys
  {
  }

  /** A known key yields its own entry; any other key yields the centre entry. */
  lemma LookupSpec(key: string)
    ensures key in Keys ==> Lookup(key) == Table[key]
    ensures key !in Keys ==> Lookup(key) == "(w-text_w)/2:(h-text_h)/2"
  {
    TableKeys();
  }

  /** Every table entry is of the form x:y, so the "10" fallback of XY is never used. */
  lemma LookupHasColon(key: string)
    ensures ':' in Lookup(key)
  {
    if key == "tl" || key == "ml" || key == "bl" {
      LeftColumn(key);
    } else if key == "tr" || key == "mr" || key == "br" {
      RightColumn(key);
    } else if key == "tc" || key == "mc" || key == "bc" {
      CentreColumn(key);
    } else {
      Fallback(key);
    }
  }

  /** The left-hand anchors put x at 10. */
  lemma LeftColumn(key: string)
    requires key == "tl" || key == "ml" || key == "bl"
    ensures |Lookup(key)| > 2 && Lookup(key)[..3] == "10:"
    ensures ':' in Lookup(key)
  {
    ColonAt(Lookup(key), 2);
  }

  /** The right-hand anchors put x at main_w-text_w-10. */
  lemma RightColumn(key: string)
    requires key == "tr" || key == "mr" || key == "br"
    ensures |Lookup(key)| > 16 && Lookup(key)[..17] == "main_w-text_w-10:"
    ensures ':' in Lookup(key)
  {
    ColonAt(Lookup(key), 16);
  }

  /** The centred anchors put x at (w-text_w)/2. */
  lemma CentreColumn(key: string)
    requires key == "tc" || key == "mc" || key == "bc"
    ensures |Lookup(key)| > 12 && Lookup(key)[..13] == "(w-text_w)/2:"
    ensures ':' in Lookup(key)
  {
    ColonAt(Lookup(key), 12);
  }

  /** Any other key falls back to the centre entry. */
  lemma Fallback(key: string)
    requires key !in Keys
    ensures Lookup(key) == "(w-text_w)/2:(h-text_h)/2"
    ensures ':' in Lookup(key)
  {
    TableKeys();
    ColonAt(Lookup(key), 12);
  }

  /** Helper: a colon at a known index is a colon in the string. */
  lemma ColonAt(s: string, i: nat)
    requires i < |s| && s[i] == ':'
    ensures ':' in s
  {
  }

  /** For a looked-up position, x and y rejoined by a colon give the position back, and x has no colon. */
  lemma LookupXY(key: string)
    ensures XY(Lookup(key)).0 + ":" + XY(Lookup(key)).1 == Lookup(key)
    ensures ':' !in XY(Lookup(key)).0
  {
    LookupHasColon(key);
    SplitFirstParts(Lookup(key), ':');
  }
}
