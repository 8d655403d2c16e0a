/** ScrobbleEligibilityService: whether a play counts as a Last.fm scrobble.
    Durations are seconds as reals; the source's doubles are not modelled. */
module Scrobbling {
  import opened Wrappers
  import opened Models

  /** Last.fm ignores tracks of 30 seconds or less. */
  const MinTrackLengthForScrobbleSeconds: real := 30.0

  /** The Last.fm settings the rule reads; the defaults are 50 % and 240 s. */
  datatype LastfmSettings = LastfmSettings(
    scrobblingEnabled: bool,
    scrobbleThresholdPercentage: int,
    scrobbleThresholdAbsoluteSeconds: int)

  function DefaultSettings(): LastfmSettings
  {
    LastfmSettings(false, 50, 240)
  }

  function Min(a: real, b: real): (m: real)
    ensures m <= a && m <= b && (m == a || m == b)
  {
    if a <= b then a else b
  }

  /** The play time a song needs: the percentage of its length or the
      absolute cap, whichever is shorter. */
  function RequiredSeconds(duration: real, settings: LastfmSettings): real
  {
    Min(duration * (settings.scrobbleThresholdPercentage as real / 100.0),
        settings.scrobbleThresholdAbsoluteSeconds as real)
  }

  /** ShouldScrobble. A null song never scrobbles. */
  function ShouldScrobble(song: Option<Song>, played: real, settings: LastfmSettings): (r: bool)
    ensures song.None? ==> !r
    ensures song.Some? && song.value.duration <= MinTrackLengthForScrobbleSeconds ==> !r
    ensures r <==> (song.Some? && song.value.duration > 30.0 &&
                    (played * 100.0 >= song.value.duration * settings.scrobbleThresholdPercentage as real
                     || played >= settings.scrobbleThresholdAbsoluteSeconds as real))
  {
    if song.None? || song.value.duration <= MinTrackLengthForScrobbleSeconds then false
    else played >= RequiredSeconds(song.value.duration, settings)
  }

  /** Playing longer never turns a scrobble into a non-scrobble. */
  lemma ScrobbleMonotone(song: Option<Song>, played: real, later: real, settings: LastfmSettings)
    requires played <= later
    requires ShouldScrobble(song, played, settings)
    ensures ShouldScrobble(song, later, settings)
  {
  }

  /** A song longer than 30 seconds played to its end scrobbles whenever the
      percentage is at most 100. */
  lemma FullPlayScrobbles(song: Song, settings: LastfmSettings)
    requires song.duration > MinTrackLengthForScrobbleSeconds
    requires settings.scrobbleThresholdPercentage <= 100
    ensures ShouldScrobble(Some(song), song.duration, settings)
  {
    assert song.duration * (settings.scrobbleThresholdPercentage as real / 100.0) <= song.duration;
  }

  function SongOfLength(seconds: real): Song
  {
    Song("song.mp3", "", "", "", seconds, false)
  }

  /** The scenarios of the service's tests, under 50 % and 240 s. */
  lemma DefaultScenarios()
    ensures !ShouldScrobble(Some(SongOfLength(29.0)), 29.0, DefaultSettings())
    ensures ShouldScrobble(Some(SongOfLength(200.0)), 101.0, DefaultSettings())
    ensures !ShouldScrobble(Some(SongOfLength(200.0)), 90.0, DefaultSettings())
    ensures ShouldScrobble(Some(SongOfLength(600.0)), 250.0, DefaultSettings())
    ensures !ShouldScrobble(Some(SongOfLength(600.0)), 200.0, DefaultSettings())
  {
  }

  /** A 90 % threshold is not met by 85 s of a 100 s song. */
  lemma CustomPercentageScenario()
    ensures !ShouldScrobble(Some(SongOfLength(100.0)), 85.0, DefaultSettings().(scrobbleThresholdPercentage := 90))
  {
  }
}
