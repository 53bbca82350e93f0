/**
 * The now-playing card's title: a fixed table from ambient keys to display
 * names, falling back to "Theta Focus".
 */
module NowPlaying {

  /** The card's own key-to-name table (own keys only). */
  const AmbientNames: map<string, string> := map[
    "rain" := "Rain",
    "ocean" := "Ocean Waves",
    "forest" := "Forest",
    "wind" := "Wind",
    "white" := "White Noise",
    "brown" := "Brown Noise",
    "none" := "Theta Focus"
  ]

  const DefaultName: string := "Theta Focus"

  /**
   * `ambientNames[ambientType] || 'Theta Focus'`: the table's entry when it is
   * present and non-empty, the default otherwise.
   */
  function TrackName(ambientType: string): (name: string)
    ensures name != ""
    ensures ambientType in AmbientNames ==> name == AmbientNames[ambientType]
    ensures ambientType !in AmbientNames ==> name == DefaultName
  {
    if ambientType in AmbientNames && AmbientNames[ambientType] != "" then
      AmbientNames[ambientType]
    else
      DefaultName
  }

  /** The seven known keys and what each displays. */
  lemma KnownTrackNames()
    ensures TrackName("rain") == "Rain"
    ensures TrackName("ocean") == "Ocean Waves"
    ensures TrackName("forest") == "Forest"
    ensures TrackName("wind") == "Wind"
    ensures TrackName("white") == "White Noise"
    ensures TrackName("brown") == "Brown Noise"
    ensures TrackName("none") == "Theta Focus"
    ensures TrackName("") == "Theta Focus"
  {
  }
}
