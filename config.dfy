/**
 * The worker's configuration: the cache version, the current cache name and
 * the resources it precaches, grouped by kind.
 */
module Config {

  const CACHE_VERSION := "v4.0.0"

  /** The only cache the worker writes to. */
  const CACHE_NAME := "performance-maker-" + CACHE_VERSION

  const CRITICAL_RESOURCES: seq<string> := ["/", "/index.html", "/App.tsx", "/styles/globals.css"]

  const FONT_RESOURCES: seq<string> := [
    "https://raw.githubusercontent.com/MikeSchoettler/Performance-Maker/main/public/fonts/YangoGroupHeadlineHeavyArabic.woff2",
    "https://raw.githubusercontent.com/MikeSchoettler/Performance-Maker/main/public/fonts/YangoTextMedium.woff2"
  ]

  const BACKGROUND_RESOURCES: seq<string> := [
    "https://raw.githubusercontent.com/MikeSchoettler/Performance-Maker/main/public/defaults/backgrounds/Style1_EN.png",
    "https://raw.githubusercontent.com/MikeSchoettler/Performance-Maker/main/public/defaults/backgrounds/Style1_AR.png",
    "https://raw.githubusercontent.com/MikeSchoettler/Performance-Maker/main/public/defaults/backgrounds/Style2_EN.png",
    "https://raw.githubusercontent.com/MikeSchoettler/Performance-Maker/main/public/defaults/backgrounds/Style2_AR.png",
    "https://raw.githubusercontent.com/MikeSchoettler/Performance-Maker/main/public/defaults/backgrounds/Style3_EN.png",
    "https://raw.githubusercontent.com/MikeSchoettler/Performance-Maker/main/public/defaults/backgrounds/Style3_AR.png"
  ]

  const ICON_RESOURCES: seq<string> := ["/public/defaults/yango-logo.svg"]

  const AUDIO_RESOURCES: seq<string> := [
    "https://raw.githubusercontent.com/MikeSchoettler/Performance-Maker/main/public/defaults/audio/Style1.mp3",
    "https://raw.githubusercontent.com/MikeSchoettler/Performance-Maker/main/public/defaults/audio/Style2.mp3",
    "https://raw.githubusercontent.com/MikeSchoettler/Performance-Maker/main/public/defaults/audio/Style3.mp3"
  ]

  /** The kinds of precached resources, in the order they are precached. */
  const GROUPS: seq<seq<string>> :=
    [CRITICAL_RESOURCES, FONT_RESOURCES, BACKGROUND_RESOURCES, ICON_RESOURCES, AUDIO_RESOURCES]

  /** The lists of `groups` joined end to end. */
  function Concat(groups: seq<seq<string>>): (r: seq<string>)
    ensures forall u :: u in r <==> exists g :: 0 <= g < |groups| && u in groups[g]
  {
    if groups == [] then []
    else
      var rest := Concat(groups[1..]);
      assert forall g :: 0 < g < |groups| ==> groups[g] == groups[1..][g - 1];
      groups[0] + rest
  }

  /** The full precache list: every kind's resources, kind after kind. */
  function PrecacheResources(): (r: seq<string>)
    ensures forall u :: u in r <==> || u in CRITICAL_RESOURCES || u in FONT_RESOURCES || u in BACKGROUND_RESOURCES
                                    || u in ICON_RESOURCES || u in AUDIO_RESOURCES
  {
    assert && GROUPS[0] == CRITICAL_RESOURCES && GROUPS[1] == FONT_RESOURCES
           && GROUPS[2] == BACKGROUND_RESOURCES && GROUPS[3] == ICON_RESOURCES && GROUPS[4] == AUDIO_RESOURCES;
    assert forall g :: 0 <= g < |GROUPS| ==>
             || GROUPS[g] == CRITICAL_RESOURCES || GROUPS[g] == FONT_RESOURCES || GROUPS[g] == BACKGROUND_RESOURCES
             || GROUPS[g] == ICON_RESOURCES || GROUPS[g] == AUDIO_RESOURCES;
    Concat(GROUPS)
  }

  /**
   * The precache list is the critical, font, background, icon and audio
   * lists joined in that order, sixteen resources in all.
   */
  lemma PrecacheInOrder()
    ensures PrecacheResources()
         == CRITICAL_RESOURCES + FONT_RESOURCES + BACKGROUND_RESOURCES + ICON_RESOURCES + AUDIO_RESOURCES
    ensures |PrecacheResources()| == 16
  {
    var tail4 := [AUDIO_RESOURCES];
    var tail3 := [ICON_RESOURCES] + tail4;
    var tail2 := [BACKGROUND_RESOURCES] + tail3;
    var tail1 := [FONT_RESOURCES] + tail2;
    assert GROUPS == [CRITICAL_RESOURCES] + tail1;
    assert Concat(tail4) == AUDIO_RESOURCES by {
      assert tail4[1..] == [];
    }
    assert Concat(tail3) == ICON_RESOURCES + AUDIO_RESOURCES by {
      assert tail3[1..] == tail4;
    }
    assert Concat(tail2) == BACKGROUND_RESOURCES + ICON_RESOURCES + AUDIO_RESOURCES by {
      assert tail2[1..] == tail3;
    }
    assert Concat(tail1) == FONT_RESOURCES + BACKGROUND_RESOURCES + ICON_RESOURCES + AUDIO_RESOURCES by {
      assert tail1[1..] == tail2;
    }
    assert GROUPS[1..] == tail1;
  }
}
