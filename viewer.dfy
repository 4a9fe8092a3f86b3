/** The interaction state machine of the document viewer component: the card
    opens a modal, which closes from its close button or, in the compact
    layout, by a downward drag past a threshold; the open-state effect
    reclassifies the viewport, reseeds the zoom index and locks or releases
    page scrolling, and its cleanup always releases the lock. */
module PdfViewer {
  import opened Zoom
  import opened FileName

  /** The value of document.body.style.overflow that the component writes. */
  datatype Overflow = Auto | Hidden

  /** The downward drag offset, in pixels, that a release must exceed to dismiss. */
  const DismissThreshold: real := 100.0

  /** The onDragEnd rule: a release closes the viewer exactly when the layout
      is compact and the vertical offset exceeds the threshold. */
  predicate ShouldDismiss(offsetY: real, isMobile: bool) {
    offsetY > DismissThreshold && isMobile
  }

  /** In the compact layout a release just past the threshold, at a fractional offset, dismisses. */
  lemma JustPastThresholdDismisses()
    ensures ShouldDismiss(100.5, true)
    ensures !ShouldDismiss(100.5, false)
  {
  }

  /** A release at exactly the threshold leaves the viewer open. */
  lemma ThresholdItselfDoesNotDismiss(isMobile: bool)
    ensures !ShouldDismiss(DismissThreshold, isMobile)
  {
  }

  /** In the wide layout no drag offset dismisses the viewer. */
  lemma WideLayoutNeverDismisses(offsetY: real)
    ensures !ShouldDismiss(offsetY, false)
  {
  }

  /** Dismissal is monotone in the offset: dragging further never keeps open what a shorter drag closed. */
  lemma DismissMonotone(shorter: real, longer: real, isMobile: bool)
    requires shorter <= longer && ShouldDismiss(shorter, isMobile)
    ensures ShouldDismiss(longer, isMobile)
  {
  }

  /** One mounted viewer component. The fields are the component's state
      hooks; `effectOpen` is the dependency value the open-state effect last
      ran with; the ghost fields stand for the page's scroll lock and for the
      registration of the resize listener. */
  class Viewer {
    const pdfFile: string
    var isViewerOpen: bool
    var isMobile: bool
    var zoomLevelIndex: int
    var effectOpen: bool
    ghost var bodyOverflow: Overflow
    ghost var resizeListening: bool

    /** While mounted: the zoom index is a valid table index, the resize
        listener is registered, and the scroll lock reflects the open state
        the effect last saw. */
    ghost predicate Valid()
      reads this
    {
      ValidZoomIndex(zoomLevelIndex) && resizeListening &&
      (bodyOverflow == Hidden <==> effectOpen)
    }

    /** No effect is pending: the effect has seen the current open state. */
    predicate Settled()
      reads this
    {
      effectOpen == isViewerOpen
    }

    /** The first render (closed, not mobile) followed by the mount run of
        the open-state effect, with the window `width` wide at that time. */
    constructor Mount(pdfFile: string, width: int)
      ensures Valid() && Settled()
      ensures this.pdfFile == pdfFile
      ensures !isViewerOpen && isMobile == IsCompact(width)
      ensures zoomLevelIndex == SeedIndex(width)
      ensures bodyOverflow == Auto
    {
      this.pdfFile := pdfFile;
      isViewerOpen := false;
      isMobile := false;
      new;
      RunEffect(width);
    }

    /** updateDeviceType: reclassifies the layout from the window width. */
    method UpdateDeviceType(width: int)
      modifies this`isMobile
      ensures isMobile == IsCompact(width)
    {
      isMobile := width < CompactBreakpoint;
    }

    /** setInitialScale: seeds the zoom index from the window width. */
    method SetInitialScale(width: int)
      modifies this`zoomLevelIndex
      ensures zoomLevelIndex == SeedIndex(width)
      ensures ZoomSteps[zoomLevelIndex] ==
        if width >= 1920 then 67 else if width >= 1024 then 50 else if width >= 768 then 33 else 20
    {
      if width >= 1920 {
        zoomLevelIndex := 5;
      } else if width >= 1024 {
        zoomLevelIndex := 4;
      } else if width >= 768 {
        zoomLevelIndex := 3;
      } else {
        zoomLevelIndex := 1;
      }
      SeedPercent(width);
    }

    /** The body of the open-state effect: classify, listen for resizes,
        seed the zoom, and lock scrolling exactly when open. */
    method RunEffect(width: int)
      modifies this`isMobile, this`zoomLevelIndex, this`effectOpen, this`bodyOverflow, this`resizeListening
      ensures Valid() && Settled()
      ensures isMobile == IsCompact(width) && zoomLevelIndex == SeedIndex(width)
      ensures bodyOverflow == (if isViewerOpen then Hidden else Auto)
    {
      UpdateDeviceType(width);
      resizeListening := true;
      SetInitialScale(width);
      if isViewerOpen {
        bodyOverflow := Hidden;
      } else {
        bodyOverflow := Auto;
      }
      effectOpen := isViewerOpen;
    }

    /** The effect's cleanup: release the scroll lock and the resize listener. */
    method EffectCleanup()
      modifies this`bodyOverflow, this`resizeListening
      ensures bodyOverflow == Auto && !resizeListening
    {
      bodyOverflow := Auto;
      resizeListening := false;
    }

    /** What the framework does after a render: when the open state differs
        from the one the effect last ran with, clean the old effect up and run
        it again with the current window `width`; otherwise nothing. */
    method Commit(width: int)
      requires Valid()
      modifies this`isMobile, this`zoomLevelIndex, this`effectOpen, this`bodyOverflow, this`resizeListening
      ensures Valid() && Settled()
      ensures bodyOverflow == Hidden <==> isViewerOpen
      ensures old(Settled()) ==> unchanged(this)
      ensures !old(Settled()) ==> isMobile == IsCompact(width) && zoomLevelIndex == SeedIndex(width)
    {
      if isViewerOpen != effectOpen {
        EffectCleanup();
        RunEffect(width);
      }
    }

    /** A window resize while mounted: the registered listener reclassifies
        the layout and leaves the zoom index as it is. */
    method WindowResized(width: int)
      requires Valid()
      modifies this`isMobile
      ensures Valid()
      ensures isMobile == IsCompact(width)
    {
      UpdateDeviceType(width);
    }

    /** Unmounting runs the last effect's cleanup: scrolling is released
        whatever the open state. */
    method Unmount()
      modifies this`bodyOverflow, this`resizeListening
      ensures bodyOverflow == Auto && !resizeListening
    {
      EffectCleanup();
    }

    /** handleCardClick: opens the viewer and changes nothing else. */
    method HandleCardClick()
      requires Valid()
      modifies this`isViewerOpen
      ensures Valid()
      ensures isViewerOpen
    {
      isViewerOpen := true;
    }

    /** handleCloseViewer: closes the viewer and changes nothing else. */
    method HandleCloseViewer()
      requires Valid()
      modifies this`isViewerOpen
      ensures Valid()
      ensures !isViewerOpen
    {
      isViewerOpen := false;
    }

    /** handleZoomIn: one step up the table, clamped at the last entry. */
    method HandleZoomIn()
      requires Valid()
      modifies this`zoomLevelIndex
      ensures Valid()
      ensures zoomLevelIndex == ZoomedIn(old(zoomLevelIndex))
      ensures ZoomSteps[old(zoomLevelIndex)] <= ZoomSteps[zoomLevelIndex]
    {
      ZoomInNeverLowersScale(zoomLevelIndex);
      zoomLevelIndex := Min(zoomLevelIndex + 1, |ZoomSteps| - 1);
    }

    /** handleZoomOut: one step down the table, clamped at the first entry. */
    method HandleZoomOut()
      requires Valid()
      modifies this`zoomLevelIndex
      ensures Valid()
      ensures zoomLevelIndex == ZoomedOut(old(zoomLevelIndex))
      ensures ZoomSteps[zoomLevelIndex] <= ZoomSteps[old(zoomLevelIndex)]
    {
      ZoomOutNeverRaisesScale(zoomLevelIndex);
      zoomLevelIndex := Max(zoomLevelIndex - 1, 0);
    }

    /** onDragEnd: closes the viewer when ShouldDismiss holds, else leaves it. */
    method HandleDragEnd(offsetY: real)
      requires Valid()
      modifies this`isViewerOpen
      ensures Valid()
      ensures isViewerOpen == (old(isViewerOpen) && !ShouldDismiss(offsetY, isMobile))
    {
      if offsetY > DismissThreshold && isMobile {
        HandleCloseViewer();
      }
    }

    /** handleDownload: the link points at the document and suggests the
        last '/'-separated segment of its URL as the filename. */
    method HandleDownload() returns (href: string, download: string)
      ensures href == pdfFile
      ensures '/' !in download
      ensures download == DownloadName(pdfFile)
    {
      href := pdfFile;
      download := DownloadName(pdfFile);
    }
  }

  /** Clicking the card and letting the effect run: the viewer is open, page
      scrolling is locked, and a viewer that was closed is reseeded. */
  method OpenFromCard(v: Viewer, width: int)
    requires v.Valid() && v.Settled()
    modifies v
    ensures v.Valid() && v.Settled()
    ensures v.isViewerOpen && v.bodyOverflow == Hidden
    ensures !old(v.isViewerOpen) ==> v.isMobile == IsCompact(width) && v.zoomLevelIndex == SeedIndex(width)
    ensures old(v.isViewerOpen) ==> v.isMobile == old(v.isMobile) && v.zoomLevelIndex == old(v.zoomLevelIndex)
  {
    v.HandleCardClick();
    v.Commit(width);
  }

  /** Releasing a drag and letting the effect run: the viewer closes and
      scrolling is released exactly when the drag dismisses it. */
  method ReleaseDrag(v: Viewer, offsetY: real, width: int)
    requires v.Valid() && v.Settled() && v.isViewerOpen
    modifies v
    ensures v.Valid() && v.Settled()
    ensures v.isViewerOpen <==> !ShouldDismiss(offsetY, old(v.isMobile))
    ensures v.bodyOverflow == Auto <==> ShouldDismiss(offsetY, old(v.isMobile))
    ensures ShouldDismiss(offsetY, old(v.isMobile)) ==> v.isMobile == IsCompact(width) && v.zoomLevelIndex == SeedIndex(width)
    ensures !ShouldDismiss(offsetY, old(v.isMobile)) ==> v.isMobile == old(v.isMobile) && v.zoomLevelIndex == old(v.zoomLevelIndex)
  {
    v.HandleDragEnd(offsetY);
    v.Commit(width);
  }

  /** A 1300-pixel window: opening seeds 50%, and one zoom-out shows 33%. */
  method DesktopOpenThenZoomOut()
  {
    var v := new Viewer.Mount("https://x/sample.pdf", 1300);
    OpenFromCard(v, 1300);
    assert v.zoomLevelIndex == 4 && ZoomSteps[v.zoomLevelIndex] == 50;
    v.HandleZoomOut();
    assert ZoomSteps[v.zoomLevelIndex] == 33;
    var href, name := v.HandleDownload();
    SampleFileName();
    assert name == "sample.pdf";
  }

  /** A compact window: a 150-pixel swipe closes the viewer and releases
      scrolling, while a 100-pixel swipe does not; unmounting releases it. */
  method CompactSwipeToDismiss()
  {
    var v := new Viewer.Mount("sample.pdf", 400);
    OpenFromCard(v, 400);
    assert v.isMobile && v.bodyOverflow == Hidden;
    ReleaseDrag(v, 100.0, 400);
    assert v.isViewerOpen && v.bodyOverflow == Hidden;
    ReleaseDrag(v, 150.0, 400);
    assert !v.isViewerOpen && v.bodyOverflow == Auto;
    OpenFromCard(v, 400);
    v.Unmount();
    assert v.bodyOverflow == Auto;
  }
}
