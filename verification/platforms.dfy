/** The catalogue of link platforms of src/lib/types.ts. */
module Platforms {

  /** A platform a link can be added for, with its default glyph. */
  datatype Platform = Platform(name: string, icon: string)

  const SOCIAL_PLATFORMS: seq<Platform> := [
    Platform("Snapchat", "\U{1F47B}"),
    Platform("YouTube", "\U{25B6}\U{FE0F}"),
    Platform("Discord", "\U{1F4AC}"),
    Platform("Spotify", "\U{1F3B5}"),
    Platform("Instagram", "\U{1F4F7}"),
    Platform("X", "\U{1D54F}"),
    Platform("TikTok", "\U{1F3AC}"),
    Platform("Telegram", "\U{2708}\U{FE0F}"),
    Platform("SoundCloud", "\U{2601}\U{FE0F}"),
    Platform("PayPal", "\U{1F4B3}"),
    Platform("GitHub", "\U{1F419}"),
    Platform("Roblox", "\U{1F3AE}"),
    Platform("CashApp", "\U{1F4B5}"),
    Platform("Apple Music", "\U{1F3A7}"),
    Platform("GitLab", "\U{1F98A}"),
    Platform("Twitch", "\U{1F4FA}"),
    Platform("Reddit", "\U{1F916}"),
    Platform("VK", "VK"),
    Platform("NameMC", "\U{26CF}\U{FE0F}"),
    Platform("OnlyFans", "\U{1F51E}"),
    Platform("LinkedIn", "\U{1F4BC}"),
    Platform("Steam", "\U{1F3AE}"),
    Platform("Kick", "\U{26BD}"),
    Platform("Pinterest", "\U{1F4CC}"),
    Platform("LastFM", "\U{1F3BC}"),
    Platform("Payhip", "\U{1F6D2}"),
    Platform("Buy Me a Coffee", "\U{2615}"),
    Platform("Ko-fi", "\U{1F496}"),
    Platform("Facebook", "\U{1F465}"),
    Platform("Threads", "\U{1F9F5}"),
    Platform("Patreon", "\U{1F3A8}"),
    Platform("Signal", "\U{1F512}"),
    Platform("Bitcoin", "\U{20BF}"),
    Platform("Ethereum", "\U{39E}"),
    Platform("Litecoin", "\U{141}"),
    Platform("Solana", "\U{25CE}"),
    Platform("XRP", "XRP"),
    Platform("Monero", "\U{271}"),
    Platform("Email", "\U{1F4E7}"),
    Platform("Custom URL", "\U{1F517}")]

  /** The one platform whose link icon the user may type in. */
  const CUSTOM_URL: string := "Custom URL"

  /** Length, first, last and middle character: enough to tell the platform names apart. */
  function NameKey(s: string): int {
    if |s| == 0 then 0
    else ((|s| * 128 + s[0] as int) * 128 + s[|s| - 1] as int) * 128 + s[|s| / 2] as int
  }

  /**
   * The position of the platform whose name has the given key, or -1: a
   * binary search tree over the 40 keys. Each constant compared with `k` is
   * the NameKey of the catalogue name at the position it returns (for
   * instance 22344259 is the key of SOCIAL_PLATFORMS[8].name); the
   * PlatformSlots lemmas below check every one of them.
   */
  function Slot(k: int): int {
    if k < 15775587 then
      if k < 13858789 then
        if k < 11728045 then
          if k < 7743570 then
            if k < 5613003 then
              if k == 3550296 then 5 else -1
            else
              if k == 5613003 then 17 else -1
          else
            if k < 9631203 then
              if k == 7743570 then 36 else -1
            else
              if k < 11630177 then
                if k == 9631203 then 22 else -1
              else
                if k == 11630177 then 38 else -1
        else
          if k < 13758792 then
            if k < 11859685 then
              if k == 11728045 then 27 else -1
            else
              if k == 11859685 then 21 else -1
          else
            if k < 13758796 then
              if k == 13758792 then 10 else -1
            else
              if k < 13838068 then
                if k == 13758796 then 14 else -1
              else
                if k == 13838068 then 24 else -1
      else
        if k < 13941868 then
          if k < 13907536 then
            if k < 13869541 then
              if k == 13858789 then 37 else -1
            else
              if k == 13869541 then 18 else -1
          else
            if k < 13908072 then
              if k == 13907536 then 9 else -1
            else
              if k < 13941348 then
                if k == 13908072 then 25 else -1
              else
                if k == 13941348 then 16 else -1
        else
          if k < 13956718 then
            if k < 13955297 then
              if k == 13941868 then 11 else -1
            else
              if k == 13955297 then 35 else -1
          else
            if k < 13972596 then
              if k == 13956718 then 31 else -1
            else
              if k < 13972948 then
                if k == 13972596 then 15 else -1
              else
                if k == 13972948 then 6 else -1
    else
      if k < 18036581 then
        if k < 16071141 then
          if k < 15807075 then
            if k < 15792232 then
              if k == 15775587 then 32 else -1
            else
              if k == 15792232 then 12 else -1
          else
            if k < 16004978 then
              if k == 15807075 then 2 else -1
            else
              if k < 16055540 then
                if k == 16004978 then 30 else -1
              else
                if k == 16055540 then 3 else -1
        else
          if k < 17921778 then
            if k < 16151252 then
              if k == 16071141 then 29 else -1
            else
              if k == 16151252 then 1 else -1
          else
            if k < 17937890 then
              if k == 17921778 then 33 else -1
            else
              if k < 18036579 then
                if k == 17937890 then 28 else -1
              else
                if k == 18036579 then 34 else -1
      else
        if k < 20200037 then
          if k < 18152035 then
            if k < 18086342 then
              if k == 18036581 then 20 else -1
            else
              if k == 18086342 then 19 else -1
          else
            if k < 18167527 then
              if k == 18152035 then 0 else -1
            else
              if k < 20084449 then
                if k == 18167527 then 7 else -1
              else
                if k == 20084449 then 4 else -1
        else
          if k < 22344259 then
            if k < 22079085 then
              if k == 20200037 then 23 else -1
            else
              if k == 22079085 then 39 else -1
          else
            if k < 24146336 then
              if k == 22344259 then 8 else -1
            else
              if k < 32551649 then
                if k == 24146336 then 13 else -1
              else
                if k == 32551649 then 26 else -1
  }

  lemma PlatformSlots0()
    ensures forall i :: 0 <= i < 4 ==> Slot(NameKey(SOCIAL_PLATFORMS[i].name)) == i
  {
    assert Slot(NameKey(SOCIAL_PLATFORMS[0].name)) == 0;
    assert Slot(NameKey(SOCIAL_PLATFORMS[1].name)) == 1;
    assert Slot(NameKey(SOCIAL_PLATFORMS[2].name)) == 2;
    assert Slot(NameKey(SOCIAL_PLATFORMS[3].name)) == 3;
  }

  lemma PlatformSlots1()
    ensures forall i :: 4 <= i < 8 ==> Slot(NameKey(SOCIAL_PLATFORMS[i].name)) == i
  {
    assert Slot(NameKey(SOCIAL_PLATFORMS[4].name)) == 4;
    assert Slot(NameKey(SOCIAL_PLATFORMS[5].name)) == 5;
    assert Slot(NameKey(SOCIAL_PLATFORMS[6].name)) == 6;
    assert Slot(NameKey(SOCIAL_PLATFORMS[7].name)) == 7;
  }

  lemma PlatformSlots2()
    ensures forall i :: 8 <= i < 12 ==> Slot(NameKey(SOCIAL_PLATFORMS[i].name)) == i
  {
    assert Slot(NameKey(SOCIAL_PLATFORMS[8].name)) == 8;
    assert Slot(NameKey(SOCIAL_PLATFORMS[9].name)) == 9;
    assert Slot(NameKey(SOCIAL_PLATFORMS[10].name)) == 10;
    assert Slot(NameKey(SOCIAL_PLATFORMS[11].name)) == 11;
  }

  lemma PlatformSlots3()
    ensures forall i :: 12 <= i < 16 ==> Slot(NameKey(SOCIAL_PLATFORMS[i].name)) == i
  {
    assert Slot(NameKey(SOCIAL_PLATFORMS[12].name)) == 12;
    assert Slot(NameKey(SOCIAL_PLATFORMS[13].name)) == 13;
    assert Slot(NameKey(SOCIAL_PLATFORMS[14].name)) == 14;
    assert Slot(NameKey(SOCIAL_PLATFORMS[15].name)) == 15;
  }

  lemma PlatformSlots4()
    ensures forall i :: 16 <= i < 20 ==> Slot(NameKey(SOCIAL_PLATFORMS[i].name)) == i
  {
    assert Slot(NameKey(SOCIAL_PLATFORMS[16].name)) == 16;
    assert Slot(NameKey(SOCIAL_PLATFORMS[17].name)) == 17;
    assert Slot(NameKey(SOCIAL_PLATFORMS[18].name)) == 18;
    assert Slot(NameKey(SOCIAL_PLATFORMS[19].name)) == 19;
  }

  lemma PlatformSlots5()
    ensures forall i :: 20 <= i < 24 ==> Slot(NameKey(SOCIAL_PLATFORMS[i].name)) == i
  {
    assert Slot(NameKey(SOCIAL_PLATFORMS[20].name)) == 20;
    assert Slot(NameKey(SOCIAL_PLATFORMS[21].name)) == 21;
    assert Slot(NameKey(SOCIAL_PLATFORMS[22].name)) == 22;
    assert Slot(NameKey(SOCIAL_PLATFORMS[23].name)) == 23;
  }

  lemma PlatformSlots6()
    ensures forall i :: 24 <= i < 28 ==> Slot(NameKey(SOCIAL_PLATFORMS[i].name)) == i
  {
    assert Slot(NameKey(SOCIAL_PLATFORMS[24].name)) == 24;
    assert Slot(NameKey(SOCIAL_PLATFORMS[25].name)) == 25;
    assert Slot(NameKey(SOCIAL_PLATFORMS[26].name)) == 26;
    assert Slot(NameKey(SOCIAL_PLATFORMS[27].name)) == 27;
  }

  lemma PlatformSlots7()
    ensures forall i :: 28 <= i < 32 ==> Slot(NameKey(SOCIAL_PLATFORMS[i].name)) == i
  {
    assert Slot(NameKey(SOCIAL_PLATFORMS[28].name)) == 28;
    assert Slot(NameKey(SOCIAL_PLATFORMS[29].name)) == 29;
    assert Slot(NameKey(SOCIAL_PLATFORMS[30].name)) == 30;
    assert Slot(NameKey(SOCIAL_PLATFORMS[31].name)) == 31;
  }

  lemma PlatformSlots8()
    ensures forall i :: 32 <= i < 36 ==> Slot(NameKey(SOCIAL_PLATFORMS[i].name)) == i
  {
    assert Slot(NameKey(SOCIAL_PLATFORMS[32].name)) == 32;
    assert Slot(NameKey(SOCIAL_PLATFORMS[33].name)) == 33;
    assert Slot(NameKey(SOCIAL_PLATFORMS[34].name)) == 34;
    assert Slot(NameKey(SOCIAL_PLATFORMS[35].name)) == 35;
  }

  lemma PlatformSlots9()
    ensures forall i :: 36 <= i < 40 ==> Slot(NameKey(SOCIAL_PLATFORMS[i].name)) == i
  {
    assert Slot(NameKey(SOCIAL_PLATFORMS[36].name)) == 36;
    assert Slot(NameKey(SOCIAL_PLATFORMS[37].name)) == 37;
    assert Slot(NameKey(SOCIAL_PLATFORMS[38].name)) == 38;
    assert Slot(NameKey(SOCIAL_PLATFORMS[39].name)) == 39;
  }

  /** There are 40 platforms, and their names (which serve as list keys) are pairwise distinct. */
  lemma PlatformNamesDistinct()
    ensures |SOCIAL_PLATFORMS| == 40
    ensures forall i, j :: 0 <= i < j < |SOCIAL_PLATFORMS| ==> SOCIAL_PLATFORMS[i].name != SOCIAL_PLATFORMS[j].name
  {
    PlatformSlots0(); PlatformSlots1(); PlatformSlots2(); PlatformSlots3(); PlatformSlots4(); PlatformSlots5(); PlatformSlots6(); PlatformSlots7(); PlatformSlots8(); PlatformSlots9();
  }

  /** Every platform has a name; the empty name the links dialog starts with belongs to none. */
  lemma PlatformsNamed()
    ensures forall i :: 0 <= i < |SOCIAL_PLATFORMS| ==> SOCIAL_PLATFORMS[i].name != ""
  {
    PlatformSlots0(); PlatformSlots1(); PlatformSlots2(); PlatformSlots3(); PlatformSlots4(); PlatformSlots5(); PlatformSlots6(); PlatformSlots7(); PlatformSlots8(); PlatformSlots9();
    assert Slot(NameKey("")) == -1;
  }

  /** Glyphs are not unique: Roblox and Steam share one. */
  lemma PlatformIconsShared()
    ensures SOCIAL_PLATFORMS[11].name == "Roblox" && SOCIAL_PLATFORMS[21].name == "Steam"
    ensures SOCIAL_PLATFORMS[11].icon == SOCIAL_PLATFORMS[21].icon
  {
  }

  /** 'Custom URL' is the last platform of the catalogue and no other platform bears that name. */
  lemma CustomUrlIsUnique()
    ensures SOCIAL_PLATFORMS[|SOCIAL_PLATFORMS| - 1].name == CUSTOM_URL
    ensures forall i :: 0 <= i < |SOCIAL_PLATFORMS| && SOCIAL_PLATFORMS[i].name == CUSTOM_URL ==> i == |SOCIAL_PLATFORMS| - 1
  {
    PlatformNamesDistinct();
  }
}
