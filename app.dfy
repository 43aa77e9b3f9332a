/**
 * The application shell (App.tsx): which of the five screens shows, and which album the
 * photos screen is scoped to.
 */
module AppShell {
  import opened Basics
  import opened Remote
  import PhotosScreen

  datatype ViewMode = PhotosMode | AlbumsMode | PostsMode | UsersMode | SettingsMode

  /** A screen as rendered, with the properties it is given. */
  datatype Screen = Albums | Photos(albumId: Option<int>, albumTitle: string) | Posts | Users | Settings

  function ModeOf(s: Screen): ViewMode
  {
    match s
    case Albums => AlbumsMode
    case Photos(_, _) => PhotosMode
    case Posts => PostsMode
    case Users => UsersMode
    case Settings => SettingsMode
  }

  /**
   * The screens rendered below the header: one `{viewMode === m && <Screen />}` line per mode.
   * Exactly one of them shows, the one for the current mode.
   */
  function RenderedScreens(mode: ViewMode, albumId: Option<int>, albumTitle: string): (screens: seq<Screen>)
    ensures |screens| == 1 && ModeOf(screens[0]) == mode
    ensures screens[0].Photos? ==> screens[0] == Photos(albumId, albumTitle)
  {
    (if mode == AlbumsMode then [Albums] else []) +
    (if mode == PhotosMode then [Photos(albumId, albumTitle)] else []) +
    (if mode == PostsMode then [Posts] else []) +
    (if mode == UsersMode then [Users] else []) +
    (if mode == SettingsMode then [Settings] else [])
  }

  class App {
    var viewMode: ViewMode
    var selectedAlbumId: Option<int>
    var selectedAlbumTitle: string

    /** The posts screen, no album. */
    constructor ()
      ensures viewMode == PostsMode && selectedAlbumId == None && selectedAlbumTitle == ""
      ensures Rendered() == [Posts]
    {
      viewMode, selectedAlbumId, selectedAlbumTitle := PostsMode, None, "";
    }

    function Rendered(): seq<Screen>
      reads this
    {
      RenderedScreens(viewMode, selectedAlbumId, selectedAlbumTitle)
    }

    /**
     * `handleViewChange`, the header's navigation: switch screens and forget the album, so the
     * photos screen reached this way asks for all photos.
     */
    method HandleViewChange(mode: ViewMode)
      modifies this
      ensures viewMode == mode && selectedAlbumId == None && selectedAlbumTitle == ""
      ensures mode == PhotosMode ==>
        Rendered() == [Photos(None, "")] && PhotosScreen.PhotosRequest(selectedAlbumId) == GetPhotos(None)
    {
      viewMode := mode;
      selectedAlbumId := None;
      selectedAlbumTitle := "";
    }

    /** `handleAlbumSelected`: show the photos screen scoped to the chosen album. */
    method HandleAlbumSelected(albumId: int, albumTitle: string)
      modifies this
      ensures viewMode == PhotosMode && selectedAlbumId == Some(albumId) && selectedAlbumTitle == albumTitle
      ensures Rendered() == [Photos(Some(albumId), albumTitle)]
      ensures PhotosScreen.PhotosRequest(selectedAlbumId) == GetPhotos(Some(albumId))
    {
      selectedAlbumId := Some(albumId);
      selectedAlbumTitle := albumTitle;
      viewMode := PhotosMode;
    }
  }
}
