/** What the list views share: which screen they show and how they build avatar URLs. */
module Rendering {
  import opened Wrappers

  /** The three things a store-backed view can show. */
  datatype Screen<+R> = LoadingScreen | ErrorScreen(message: string) | Content(rows: seq<R>)

  /**
   * `if (loading) … if (error) … return table`: loading takes precedence over
   * an error, and an error over the rows. An empty message is falsy in
   * JavaScript, so it shows the rows.
   */
  function ScreenOf<R>(loading: bool, error: Option<string>, rows: seq<R>): (s: Screen<R>)
    ensures loading ==> s == LoadingScreen
    ensures !loading && error.Some? && error.value != "" ==> s == ErrorScreen(error.value)
    ensures s.Content? <==> !loading && (error.None? || error.value == "")
    ensures s.Content? ==> s.rows == rows
  {
    if loading then LoadingScreen
    else if error.Some? && error.value != "" then ErrorScreen(error.value)
    else Content(rows)
  }

  const AvatarPrefix: string := "https://ui-avatars.com/api/?name="

  /** The avatar URL for a name: the fixed avatar service prefix with the name appended as is. */
  function Avatar(name: string): (url: string)
    ensures |url| == |AvatarPrefix| + |name|
    ensures url[..|AvatarPrefix|] == AvatarPrefix && url[|AvatarPrefix|..] == name
  {
    AvatarPrefix + name
  }

  /** Different names get different avatars. */
  lemma AvatarInjective(a: string, b: string)
    requires Avatar(a) == Avatar(b)
    ensures a == b
  {
    assert a == Avatar(a)[|AvatarPrefix|..];
  }
}
