/**
 * The photos screen (components/Photos.tsx): the photos of the selected album, or all photos
 * when none is selected, 20 per page.
 */
module PhotosScreen {
  import opened Basics
  import opened Remote
  import Pager

  const PageSize: nat := 20

  /** The request the screen's effect sends: filtered by album only when one is selected. */
  function PhotosRequest(selectedAlbumId: Option<int>): (r: Request)
    ensures r.GetPhotos? && r.albumId == selectedAlbumId
  {
    if selectedAlbumId.Some? then GetPhotos(Some(selectedAlbumId.value)) else GetPhotos(None)
  }

  class PhotosView {
    /**
     * The screen's properties. The shell keeps the screen mounted while it stays on the photos
     * view, so they can change under a mounted screen (see `ReceiveProps`).
     */
    var selectedAlbumId: Option<int>
    var selectedAlbumTitle: string
    var photos: seq<Photo>
    var currentPage: int
    var lightboxOpen: bool
    var selectedPhoto: Option<Photo>

    /** The state before any effect has run. */
    constructor (albumId: Option<int>, albumTitle: string)
      ensures selectedAlbumId == albumId && selectedAlbumTitle == albumTitle
      ensures photos == [] && currentPage == 1 && !lightboxOpen && selectedPhoto == None
    {
      selectedAlbumId, selectedAlbumTitle := albumId, albumTitle;
      photos, currentPage := [], 1;
      lightboxOpen, selectedPhoto := false, None;
    }

    function PageCount(): nat
      reads this
    {
      Pager.PageCount(|photos|, PageSize)
    }

    /** The photos on the current page. */
    function CurrentPhotos(): (shown: seq<Photo>)
      reads this
      ensures currentPage >= 1 ==> |shown| <= PageSize
      ensures currentPage >= 1 ==>
        shown == photos[Min((currentPage - 1) * PageSize, |photos|)..Min(currentPage * PageSize, |photos|)]
    {
      Pager.Page(photos, currentPage, PageSize)
    }

    /** `fetchPhotos`: a received list replaces the photos; a failed request leaves them as they were. */
    method FetchPhotos(response: Response<seq<Photo>>) returns (request: Request)
      modifies this
      ensures request == PhotosRequest(selectedAlbumId)
      ensures response.Received? ==> photos == response.data
      ensures response.Failed? ==> photos == old(photos)
      ensures currentPage == old(currentPage) && lightboxOpen == old(lightboxOpen) && selectedPhoto == old(selectedPhoto)
      ensures selectedAlbumId == old(selectedAlbumId) && selectedAlbumTitle == old(selectedAlbumTitle)
    {
      request := PhotosRequest(selectedAlbumId);
      if response.Received? {
        photos := response.data;
      }
    }

    /**
     * New properties from the shell. The fetch effect depends on `selectedAlbumId` only: it runs
     * again, with the new album's request, exactly when the album changed. The current page,
     * the lightbox and the selected photo are kept.
     */
    method ReceiveProps(albumId: Option<int>, albumTitle: string, response: Response<seq<Photo>>)
      returns (request: Option<Request>)
      modifies this
      ensures selectedAlbumId == albumId && selectedAlbumTitle == albumTitle
      ensures albumId == old(selectedAlbumId) ==> request == None && photos == old(photos)
      ensures albumId != old(selectedAlbumId) ==>
        request == Some(PhotosRequest(albumId)) &&
        photos == (if response.Received? then response.data else old(photos))
      ensures currentPage == old(currentPage) && lightboxOpen == old(lightboxOpen) && selectedPhoto == old(selectedPhoto)
    {
      var changed := albumId != selectedAlbumId;
      selectedAlbumId, selectedAlbumTitle := albumId, albumTitle;
      request := None;
      if changed {
        var sent := FetchPhotos(response);
        request := Some(sent);
      }
    }

    /** `handlePrevPage`: back one page unless on page 1. */
    method HandlePrevPage()
      modifies this
      ensures currentPage == Pager.Step(old(currentPage), PageCount(), Pager.Prev)
      ensures Pager.InRange(old(currentPage), PageCount()) ==> Pager.InRange(currentPage, PageCount())
      ensures photos == old(photos) && lightboxOpen == old(lightboxOpen) && selectedPhoto == old(selectedPhoto)
      ensures selectedAlbumId == old(selectedAlbumId) && selectedAlbumTitle == old(selectedAlbumTitle)
    {
      if currentPage > 1 {
        currentPage := currentPage - 1;
      }
    }

    /** `handleNextPage`: forward one page unless already at (or past) the last one. */
    method HandleNextPage()
      modifies this
      ensures currentPage == Pager.Step(old(currentPage), PageCount(), Pager.Next)
      ensures Pager.InRange(old(currentPage), PageCount()) ==> Pager.InRange(currentPage, PageCount())
      ensures photos == old(photos) && lightboxOpen == old(lightboxOpen) && selectedPhoto == old(selectedPhoto)
      ensures selectedAlbumId == old(selectedAlbumId) && selectedAlbumTitle == old(selectedAlbumTitle)
    {
      if currentPage < Pager.PageCount(|photos|, PageSize) {
        currentPage := currentPage + 1;
      }
    }

    /** `handleOpenLightbox`: show one photo large. */
    method HandleOpenLightbox(photo: Photo)
      modifies this
      ensures selectedPhoto == Some(photo) && lightboxOpen
      ensures photos == old(photos) && currentPage == old(currentPage)
      ensures selectedAlbumId == old(selectedAlbumId) && selectedAlbumTitle == old(selectedAlbumTitle)
    {
      selectedPhoto := Some(photo);
      lightboxOpen := true;
    }

    /**
     * The pagination bar as components/Photos.tsx renders it: "previous" and "next" are both
     * disabled on the last page and both enabled elsewhere, so on page 1 of several pages
     * "previous" is enabled though inert (see `Pager.PhotosPrevDisabledAsWrittenIsWrong`).
     */
    function PaginationBar(): (bar: Pager.Bar)
      reads this
      ensures bar.page == currentPage && bar.pageCount == PageCount()
      ensures bar.prevDisabled == bar.nextDisabled
      ensures bar.nextDisabled <==> currentPage == PageCount()
      ensures currentPage == 1 && PageCount() >= 2 ==>
        !bar.prevDisabled && Pager.Step(currentPage, PageCount(), Pager.Prev) == currentPage
    {
      Pager.PhotosPaginationBarAsWritten(currentPage, PageCount())
    }

    /**
     * The bar with "previous" disabled on page 1, as on the posts screen: with the page in
     * range, "previous" is disabled exactly when pressing it would do nothing.
     */
    function CorrectedPaginationBar(): (bar: Pager.Bar)
      reads this
      ensures bar.page == currentPage && bar.pageCount == PageCount()
      ensures Pager.InRange(currentPage, PageCount()) ==>
        (bar.prevDisabled <==> Pager.Step(currentPage, PageCount(), Pager.Prev) == currentPage)
      ensures bar.nextDisabled <==> currentPage == PageCount()
    {
      Pager.PaginationBar(currentPage, PageCount())
    }
  }
}
