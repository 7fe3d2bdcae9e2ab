/** The text of the attack result built in backend/main.py: the hit, dodge or crit
    opening and the armour, defeat and reward suffixes, with what each marker reports. */
module AttackMessages {
  import opened Numbers

  const HitPrefix := "Удар на "
  const MissText := "💨 Босс УВЕРНУЛСЯ!"
  const CritText := "🔥 КРИТИЧЕСКИЙ УДАР!"
  const ArmorText := " 🛡️ Броня расколота!"
  const DefeatText := " ☠️ БОСС ПОВЕРЖЕН!"
  const RewardPrefix := " Награда: "
  const RewardSuffix := " 🪙"

  /** The human-readable result: the hit text, replaced by the dodge text or else by the
      crit text, then the armour-break suffix, the defeat suffix and the reward suffix. */
  function AttackMessage(damage: int, isMiss: bool, isCrit: bool, armorBroken: bool,
                         defeated: bool, paid: bool, reward: int): string
  {
    var base := if isMiss then MissText else if isCrit then CritText else HitPrefix + IntToString(damage) + "!";
    var withArmor := if armorBroken then base + ArmorText else base;
    if !defeated then withArmor
    else if paid then withArmor + DefeatText + (RewardPrefix + IntToString(reward) + RewardSuffix)
    else withArmor + DefeatText
  }

  /** The message as the handler builds it, one append at a time. */
  method Announce(damage: int, isMiss: bool, isCrit: bool, armorBroken: bool,
                  defeated: bool, paid: bool, reward: int) returns (msg: string)
    ensures msg == AttackMessage(damage, isMiss, isCrit, armorBroken, defeated, paid, reward)
  {
    msg := HitPrefix + IntToString(damage) + "!";
    if isMiss { msg := MissText; }
    else if isCrit { msg := CritText; }
    if armorBroken { msg := msg + ArmorText; }
    if defeated {
      msg := msg + DefeatText;
      if paid { msg := msg + (RewardPrefix + IntToString(reward) + RewardSuffix); }
    }
  }

  /** The five event markers of the message. */
  predicate IsMarker(c: char) { c == '💨' || c == '🔥' || c == '🛡' || c == '☠' || c == '🪙' }

  lemma MissMarkers()
    ensures '💨' in MissText && '🔥' !in MissText && '🛡' !in MissText && '☠' !in MissText && '🪙' !in MissText
  {
  }

  lemma CritMarkers()
    ensures '💨' !in CritText && '🔥' in CritText && '🛡' !in CritText && '☠' !in CritText && '🪙' !in CritText
  {
  }

  lemma ArmorMarkers()
    ensures '💨' !in ArmorText && '🔥' !in ArmorText && '🛡' in ArmorText && '☠' !in ArmorText && '🪙' !in ArmorText
  {
  }

  lemma DefeatMarkers()
    ensures '💨' !in DefeatText && '🔥' !in DefeatText && '🛡' !in DefeatText && '☠' in DefeatText && '🪙' !in DefeatText
  {
  }

  lemma RewardMarkers()
    ensures '💨' !in RewardSuffix && '🔥' !in RewardSuffix && '🛡' !in RewardSuffix && '☠' !in RewardSuffix
    ensures '🪙' in RewardSuffix
  {
  }

  lemma HitPrefixMarkers()
    ensures '💨' !in HitPrefix && '🔥' !in HitPrefix && '🛡' !in HitPrefix && '☠' !in HitPrefix && '🪙' !in HitPrefix
  {
  }

  lemma RewardPrefixMarkers()
    ensures '💨' !in RewardPrefix && '🔥' !in RewardPrefix && '🛡' !in RewardPrefix && '☠' !in RewardPrefix
    ensures '🪙' !in RewardPrefix
  {
  }

  lemma NumberHasNoMarker(i: int, c: char)
    requires IsMarker(c)
    ensures c !in IntToString(i)
  {
    var s := IntToString(i);
    assert forall k :: 0 <= k < |s| ==> s[k] in Digits || s[k] == '-';
  }

  lemma InAppend(c: char, a: string, b: string)
    ensures c in a + b <==> c in a || c in b
  {
    if c in a + b {
      var k :| 0 <= k < |a + b| && (a + b)[k] == c;
      if k >= |a| {
        assert b[k - |a|] == c;
      }
    }
    if c in a {
      var k :| 0 <= k < |a| && a[k] == c;
      assert (a + b)[k] == c;
    }
    if c in b {
      var k :| 0 <= k < |b| && b[k] == c;
      assert (a + b)[|a| + k] == c;
    }
  }

  lemma InAppend4(c: char, a: string, b: string, d: string, e: string)
    ensures c in a + b + d + e <==> c in a || c in b || c in d || c in e
  {
    InAppend(c, a, b);
    InAppend(c, a + b, d);
    InAppend(c, a + b + d, e);
  }

  /** The message as its four pieces: the opening, the armour suffix, the defeat suffix
      and the reward suffix, each possibly empty. */
  lemma MessagePieces(damage: int, isMiss: bool, isCrit: bool, armorBroken: bool,
                      defeated: bool, paid: bool, reward: int)
    ensures AttackMessage(damage, isMiss, isCrit, armorBroken, defeated, paid, reward)
         == (if isMiss then MissText else if isCrit then CritText else HitPrefix + IntToString(damage) + "!")
            + (if armorBroken then ArmorText else "")
            + (if defeated then DefeatText else "")
            + (if defeated && paid then RewardPrefix + IntToString(reward) + RewardSuffix else "")
  {
    var o := if isMiss then MissText else if isCrit then CritText else HitPrefix + IntToString(damage) + "!";
    Suffixes(o, ArmorText, DefeatText, RewardPrefix + IntToString(reward) + RewardSuffix, armorBroken, defeated, paid);
  }

  /** Appending a suffix only under a condition is appending it or the empty string. */
  lemma Suffixes(o: string, a: string, d: string, p: string, armorBroken: bool, defeated: bool, paid: bool)
    ensures var w := if armorBroken then o + a else o;
            && (if !defeated then w else if paid then w + d + p else w + d)
               == o + (if armorBroken then a else "") + (if defeated then d else "")
                  + (if defeated && paid then p else "")
  {
    assert o + "" == o;
    var w := if armorBroken then o + a else o;
    assert w + "" == w && w + "" + "" == w;
    assert w + d + "" == w + d;
  }

  /** A plain hit's opening holds no marker. */
  lemma HitHasNoMarker(damage: int, c: char)
    requires IsMarker(c)
    ensures c !in HitPrefix + IntToString(damage) + "!"
  {
    HitPrefixMarkers();
    NumberHasNoMarker(damage, c);
    InAppend(c, HitPrefix, IntToString(damage));
    InAppend(c, HitPrefix + IntToString(damage), "!");
  }

  /** The reward suffix holds only the coin marker. */
  lemma PrizeMarker(reward: int, c: char)
    requires IsMarker(c)
    ensures c in RewardPrefix + IntToString(reward) + RewardSuffix <==> c == '🪙'
  {
    RewardPrefixMarkers();
    RewardMarkers();
    NumberHasNoMarker(reward, c);
    InAppend(c, RewardPrefix, IntToString(reward));
    InAppend(c, RewardPrefix + IntToString(reward), RewardSuffix);
  }

  /** The opening of the message holds the dodge marker on a miss, the crit marker on a
      crit, and no marker on a plain hit. */
  lemma OpeningMarker(damage: int, isMiss: bool, isCrit: bool, c: char)
    requires IsMarker(c)
    ensures c in (if isMiss then MissText else if isCrit then CritText else HitPrefix + IntToString(damage) + "!")
        <==> (isMiss && c == '💨') || (!isMiss && isCrit && c == '🔥')
  {
    if isMiss {
      MissMarkers();
    } else if isCrit {
      CritMarkers();
    } else {
      HitHasNoMarker(damage, c);
    }
  }

  /** Where a marker occurs, given the four pieces of the message. */
  lemma MarkerIn(damage: int, isMiss: bool, isCrit: bool, armorBroken: bool,
                 defeated: bool, paid: bool, reward: int, c: char)
    requires IsMarker(c)
    ensures c in AttackMessage(damage, isMiss, isCrit, armorBroken, defeated, paid, reward)
        <==> || (isMiss && c == '💨') || (!isMiss && isCrit && c == '🔥')
             || (armorBroken && c == '🛡') || (defeated && c == '☠') || (defeated && paid && c == '🪙')
  {
    MessagePieces(damage, isMiss, isCrit, armorBroken, defeated, paid, reward);
    var o := if isMiss then MissText else if isCrit then CritText else HitPrefix + IntToString(damage) + "!";
    var a := if armorBroken then ArmorText else "";
    var d := if defeated then DefeatText else "";
    var p := if defeated && paid then RewardPrefix + IntToString(reward) + RewardSuffix else "";
    InAppend4(c, o, a, d, p);
    OpeningMarker(damage, isMiss, isCrit, c);
    ArmorMarkers();
    DefeatMarkers();
    PrizeMarker(reward, c);
  }

  /** Each marker of the message appears exactly when its event happened. */
  lemma MessageReports(damage: int, isMiss: bool, isCrit: bool, armorBroken: bool,
                       defeated: bool, paid: bool, reward: int)
    ensures var m := AttackMessage(damage, isMiss, isCrit, armorBroken, defeated, paid, reward);
            && ('💨' in m <==> isMiss)
            && ('🔥' in m <==> !isMiss && isCrit)
            && ('🛡' in m <==> armorBroken)
            && ('☠' in m <==> defeated)
            && ('🪙' in m <==> defeated && paid)
  {
    MarkerIn(damage, isMiss, isCrit, armorBroken, defeated, paid, reward, '💨');
    MarkerIn(damage, isMiss, isCrit, armorBroken, defeated, paid, reward, '🔥');
    MarkerIn(damage, isMiss, isCrit, armorBroken, defeated, paid, reward, '🛡');
    MarkerIn(damage, isMiss, isCrit, armorBroken, defeated, paid, reward, '☠');
    MarkerIn(damage, isMiss, isCrit, armorBroken, defeated, paid, reward, '🪙');
  }

  /** A plain hit's message starts with the damage text. */
  lemma PlainHitOpening(damage: int, isCrit: bool, armorBroken: bool, defeated: bool, paid: bool, reward: int)
    requires !isCrit
    ensures var m := AttackMessage(damage, false, isCrit, armorBroken, defeated, paid, reward);
            var hit := HitPrefix + IntToString(damage) + "!";
            |m| >= |hit| && m[..|hit|] == hit && m[..|HitPrefix|] == HitPrefix
  {
    MessagePieces(damage, false, isCrit, armorBroken, defeated, paid, reward);
    var hit := HitPrefix + IntToString(damage) + "!";
    assert hit[..|HitPrefix|] == HitPrefix;
  }
}
