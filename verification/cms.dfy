/** The content-management screen: six tabs that each load a list (or a
    singleton document), add one document from a draft, and delete or toggle
    one. The document store and the object store are not modelled: every
    call's outcome is a parameter (`writeOk`, the URL an upload returned,
    the list a reload returned), and each action returns the document it
    wrote so that its shape can be stated. */
module Cms {
  import opened Common
  import opened Seqs
  import opened Text
  import opened Entities

  // ---------------------------------------------------------------------------
  // Custom pages: the stored slug
  // ---------------------------------------------------------------------------

  /** `newPage.slug || title.toLowerCase().replace(/\s+/g, '-')`: a
      non-empty entered slug is kept verbatim; otherwise the slug is derived
      from the title, and a derived slug is already in derived form. */
  function StoredSlug(entered: string, title: string): (slug: string)
    ensures entered != "" ==> slug == entered
    ensures entered == "" ==> slug == Slugify(title)
    ensures entered == "" ==> NoWhitespace(slug) && NoUpper(slug) && Slugify(slug) == slug
    ensures slug == "" <==> entered == "" && title == ""
  {
    if entered != "" then entered
    else
      SlugifyIdempotent(title);
      Slugify(title)
  }

  /** The custom-page document `addCustomPage` writes: the draft with the
      stored slug in place of the entered one. */
  function PageDocument(draft: CustomPage): (d: CustomPage)
    ensures d.title == draft.title && d.content == draft.content
    ensures d.order == draft.order && d.showInNav == draft.showInNav
    ensures draft.slug != "" ==> d.slug == draft.slug
    ensures draft.slug == "" ==> d.slug == Slugify(draft.title)
  {
    draft.(slug := StoredSlug(draft.slug, draft.title))
  }

  /** Slugs are not checked for uniqueness: two pages with different titles
      may be stored under the same slug. */
  lemma DifferentTitlesCanShareASlug()
    ensures PageDocument(BlankPage.(title := "About")).slug ==
            PageDocument(BlankPage.(title := "about")).slug == "about"
  {
    var slug := "about";
    assert NoUpper(slug) && NoWhitespace(slug) by {
      forall i | 0 <= i < |slug| ensures !IsUpper(slug[i]) && !IsWhitespace(slug[i]) {
        assert 'a' <= slug[i] <= 'u';
      }
    }
    LowerFixesExactlyLowercase(slug);
    HyphenateFixesExactlyWhitespaceFree(slug);
    assert Lower("About") == slug by {
      assert LowerChar('A') == 'a';
    }
  }

  // ---------------------------------------------------------------------------
  // Activities: tagging uploaded files and splitting them
  // ---------------------------------------------------------------------------

  /** `file.type.startsWith('image/') ? 'image' : 'video'`: anything that is
      not an image, including a file with no type, counts as a video. */
  function Tag(f: File): (k: MediaKind)
    ensures k == Image <==> StartsWith(f.mimeType, "image/")
  {
    if StartsWith(f.mimeType, "image/") then Image else Video
  }

  /** The media entries for files uploaded to the given URLs, in upload order. */
  function Tagged(files: seq<File>, urls: seq<string>): (media: seq<Media>)
    requires |urls| == |files|
    ensures |media| == |files|
    ensures forall i :: 0 <= i < |files| ==> media[i].url == urls[i] && media[i].kind == Tag(files[i])
  {
    seq(|files|, i requires 0 <= i < |files| => Media(urls[i], Tag(files[i])))
  }

  predicate AllUploaded(downloads: seq<Option<string>>)
  {
    forall i :: 0 <= i < |downloads| ==> downloads[i].Some?
  }

  /** The URLs of a run of successful uploads. */
  function Urls(downloads: seq<Option<string>>): (urls: seq<string>)
    requires AllUploaded(downloads)
    ensures |urls| == |downloads|
    ensures forall i :: 0 <= i < |downloads| ==> downloads[i] == Some(urls[i])
  {
    seq(|downloads|, i requires 0 <= i < |downloads| => downloads[i].value)
  }

  /** `uploadActivityFiles`: uploads the files one after another and collects
      one media entry per file. `downloads[i]` is what uploading file `i`
      yielded; the first failure aborts the whole upload. */
  method UploadActivityFiles(files: seq<File>, downloads: seq<Option<string>>)
    returns (media: Option<seq<Media>>)
    requires |downloads| == |files|
    ensures media.Some? <==> AllUploaded(downloads)
    ensures media.Some? ==> media.value == Tagged(files, Urls(downloads))
  {
    var urls: seq<Media> := [];
    var i := 0;
    while i < |files|
      invariant 0 <= i <= |files|
      invariant forall j :: 0 <= j < i ==> downloads[j].Some?
      invariant |urls| == i
      invariant forall j :: 0 <= j < i ==> urls[j] == Media(downloads[j].value, Tag(files[j]))
    {
      var download := downloads[i];
      if download.None? {
        return None;
      }
      urls := urls + [Media(download.value, Tag(files[i]))];
      i := i + 1;
    }
    return Some(urls);
  }

  predicate IsPhoto(m: Media) { m.kind == Image }
  predicate IsVideo(m: Media) { m.kind == Video }
  function UrlOf(m: Media): string { m.url }

  /** `photos`: the URLs of the image entries, in order; each image entry's
      URL is there and nothing else is. */
  function Photos(media: seq<Media>): (r: seq<string>)
    ensures |r| <= |media|
    ensures forall i :: 0 <= i < |media| && IsPhoto(media[i]) ==> media[i].url in r
    ensures forall j :: 0 <= j < |r| ==> exists e :: e in media && IsPhoto(e) && e.url == r[j]
  {
    Map(UrlOf, Filter(IsPhoto, media))
  }

  /** `videos`: the URLs of the video entries, in order; each video entry's
      URL is there and nothing else is. */
  function Videos(media: seq<Media>): (r: seq<string>)
    ensures |r| <= |media|
    ensures forall i :: 0 <= i < |media| && IsVideo(media[i]) ==> media[i].url in r
    ensures forall j :: 0 <= j < |r| ==> exists e :: e in media && IsVideo(e) && e.url == r[j]
  {
    Map(UrlOf, Filter(IsVideo, media))
  }

  /** Every media entry lands in exactly one of the two lists. */
  lemma {:induction false} SplitKeepsEveryFile(media: seq<Media>)
    ensures |Photos(media)| + |Videos(media)| == |media|
  {
    FilterPartition(IsPhoto, IsVideo, media);
  }

  /** The image URLs, read directly off the uploaded files. */
  function ImageUrls(files: seq<File>, urls: seq<string>): seq<string>
    requires |urls| == |files|
  {
    if files == [] then []
    else (if StartsWith(files[0].mimeType, "image/") then [urls[0]] else []) + ImageUrls(files[1..], urls[1..])
  }

  /** The non-image URLs, read directly off the uploaded files. */
  function OtherUrls(files: seq<File>, urls: seq<string>): seq<string>
    requires |urls| == |files|
  {
    if files == [] then []
    else (if StartsWith(files[0].mimeType, "image/") then [] else [urls[0]]) + OtherUrls(files[1..], urls[1..])
  }

  /** Tagging and then splitting puts in `photos` exactly the URLs of the
      files whose MIME type starts with `image/`, and in `videos` all the
      others, each in upload order. */
  lemma {:induction false} SplitFollowsMimeType(files: seq<File>, urls: seq<string>)
    requires |urls| == |files|
    ensures Photos(Tagged(files, urls)) == ImageUrls(files, urls)
    ensures Videos(Tagged(files, urls)) == OtherUrls(files, urls)
  {
    if files != [] {
      var head := [Media(urls[0], Tag(files[0]))];
      var tail := Tagged(files[1..], urls[1..]);
      assert Tagged(files, urls) == head + tail;
      SplitFollowsMimeType(files[1..], urls[1..]);
      FilterAppend(IsPhoto, head, tail);
      FilterAppend(IsVideo, head, tail);
      MapAppend(UrlOf, Filter(IsPhoto, head), Filter(IsPhoto, tail));
      MapAppend(UrlOf, Filter(IsVideo, head), Filter(IsVideo, tail));
    }
  }

  // ---------------------------------------------------------------------------
  // Promotions: the active flag
  // ---------------------------------------------------------------------------

  /** The effect of `updateDoc(..., { active: !currentStatus })` on a stored
      promotion: only the flag changes, and it becomes the negation of the
      status the button was rendered with. */
  function Toggled(p: Promotion, currentStatus: bool): (q: Promotion)
    ensures q.active == !currentStatus
    ensures q.(active := p.active) == p
  {
    p.(active := !currentStatus)
  }

  /** Toggling twice, each time from the freshly loaded flag, restores the
      promotion. */
  lemma ToggleTwiceRestores(p: Promotion)
    ensures var once := Toggled(p, p.active); Toggled(once, once.active) == p
  {
  }

  // ---------------------------------------------------------------------------
  // The screen's state
  // ---------------------------------------------------------------------------

  /** Everything the screen keeps between actions. */
  datatype CmsState = CmsState(
    settings: Settings,
    banners: seq<Entry<Banner>>, newBanner: Banner, bannerFile: Option<File>,
    pages: seq<Entry<CustomPage>>, newPage: CustomPage,
    activities: seq<Entry<Activity>>, newActivity: Activity, activityFiles: seq<File>,
    promotions: seq<Entry<Promotion>>, newPromotion: Promotion,
    history: History,
    notice: Notice)

  const InitialState := CmsState(
    InitialSettings, [], BlankBanner, None, [], BlankPage, [], BlankActivity, [],
    [], BlankPromotion, BlankHistory, NoNotice)

  class CmsPage {
    var settings: Settings
    var banners: seq<Entry<Banner>>
    var newBanner: Banner
    var bannerFile: Option<File>
    var pages: seq<Entry<CustomPage>>
    var newPage: CustomPage
    var activities: seq<Entry<Activity>>
    var newActivity: Activity
    var activityFiles: seq<File>
    var promotions: seq<Entry<Promotion>>
    var newPromotion: Promotion
    var history: History
    var notice: Notice

    function View(): CmsState
      reads this
    {
      CmsState(settings, banners, newBanner, bannerFile, pages, newPage, activities, newActivity,
               activityFiles, promotions, newPromotion, history, notice)
    }

    constructor ()
      ensures View() == InitialState
    {
      settings := InitialSettings;
      banners, newBanner, bannerFile := [], BlankBanner, None;
      pages, newPage := [], BlankPage;
      activities, newActivity, activityFiles := [], BlankActivity, [];
      promotions, newPromotion := [], BlankPromotion;
      history := BlankHistory;
      notice := NoNotice;
    }

    // --- Settings and history: singleton documents -------------------------

    /** `loadWebsiteSettings`: the stored document replaces the local record
        only if it exists (and could be read). */
    method LoadSettings(found: Option<Settings>)
      modifies this
      ensures View() == old(View()).(settings := if found.Some? then found.value else old(settings))
    {
      if found.Some? {
        settings := found.value;
      }
    }

    /** `saveWebsiteSettings`: overwrites `settings/website` with the whole
        current record plus `updatedAt`. */
    method SaveSettings(writeOk: bool, stamp: int) returns (written: Option<Stored<Settings>>)
      modifies this
      ensures written == if writeOk then Some(Stored(settings, stamp)) else None
      ensures View() == old(View()).(notice := Report(writeOk, "Website settings saved!", "Failed to save settings"))
    {
      written := if writeOk then Some(Stored(settings, stamp)) else None;
      notice := Report(writeOk, "Website settings saved!", "Failed to save settings");
    }

    /** `loadHistoryContent`: as for the settings, at `content/history`. */
    method LoadHistory(found: Option<History>)
      modifies this
      ensures View() == old(View()).(history := if found.Some? then found.value else old(history))
    {
      if found.Some? {
        history := found.value;
      }
    }

    /** `saveHistoryContent`: overwrites `content/history` with the whole
        current record plus `updatedAt`. */
    method SaveHistory(writeOk: bool, stamp: int) returns (written: Option<Stored<History>>)
      modifies this
      ensures written == if writeOk then Some(Stored(history, stamp)) else None
      ensures View() == old(View()).(notice := Report(writeOk, "History content saved!", "Failed to save history"))
    {
      written := if writeOk then Some(Stored(history, stamp)) else None;
      notice := Report(writeOk, "History content saved!", "Failed to save history");
    }

    // --- Banners ------------------------------------------------------------

    method LoadBanners(answer: Option<seq<Entry<Banner>>>)
      modifies this
      ensures View() == old(View()).(banners := Reloaded(old(banners), answer))
    {
      banners := Reloaded(banners, answer);
    }

    /** The banner file input. */
    method ChooseBannerFile(file: Option<File>)
      modifies this
      ensures View() == old(View()).(bannerFile := file)
    {
      bannerFile := file;
    }

    /** `addBanner`: upload the chosen image (none gives `''`), write the
        draft with that URL, then reset the draft and the file and reload.
        A failed upload or write changes nothing but the message. */
    method AddBanner(upload: Option<string>, writeOk: bool, stamp: int, reload: Option<seq<Entry<Banner>>>)
      returns (written: Option<Stored<Banner>>)
      modifies this
      ensures var url := UploadedUrl(old(bannerFile), upload);
              written == if url.Some? && writeOk then Some(Stored(old(newBanner).(imageUrl := url.value), stamp)) else None
      ensures written.Some? ==> View() == old(View()).(
                newBanner := BlankBanner, bannerFile := None, banners := Reloaded(old(banners), reload),
                notice := Notice(Success, "Banner added!"))
      ensures written.None? ==> View() == old(View()).(notice := Notice(Failure, "Failed to add banner"))
    {
      var url := UploadedUrl(bannerFile, upload);
      if url.None? || !writeOk {
        notice := Notice(Failure, "Failed to add banner");
        return None;
      }
      written := Some(Stored(newBanner.(imageUrl := url.value), stamp));
      newBanner := BlankBanner;
      bannerFile := None;
      banners := Reloaded(banners, reload);
      notice := Notice(Success, "Banner added!");
    }

    /** `deleteBanner`: asks for confirmation, deletes, reloads. */
    method DeleteBanner(id: string, confirmed: bool, writeOk: bool, reload: Option<seq<Entry<Banner>>>)
      returns (deleted: Option<string>)
      modifies this
      ensures deleted == if confirmed && writeOk then Some(id) else None
      ensures !confirmed ==> View() == old(View())
      ensures confirmed ==> View() == old(View()).(
                banners := if writeOk then Reloaded(old(banners), reload) else old(banners),
                notice := Report(writeOk, "Banner deleted!", "Failed to delete banner"))
    {
      if !confirmed {
        return None;
      }
      deleted := if writeOk then Some(id) else None;
      if writeOk {
        banners := Reloaded(banners, reload);
      }
      notice := Report(writeOk, "Banner deleted!", "Failed to delete banner");
    }

    // --- Custom pages -------------------------------------------------------

    method LoadPages(answer: Option<seq<Entry<CustomPage>>>)
      modifies this
      ensures View() == old(View()).(pages := Reloaded(old(pages), answer))
    {
      pages := Reloaded(pages, answer);
    }

    /** `addCustomPage`: writes the draft with its stored slug, whatever
        slugs the existing pages have, then resets the draft and reloads. */
    method AddCustomPage(writeOk: bool, stamp: int, reload: Option<seq<Entry<CustomPage>>>)
      returns (written: Option<Stored<CustomPage>>)
      modifies this
      ensures written == if writeOk then Some(Stored(PageDocument(old(newPage)), stamp)) else None
      ensures writeOk ==> View() == old(View()).(
                newPage := BlankPage, pages := Reloaded(old(pages), reload),
                notice := Notice(Success, "Page added! Refresh to see in navigation."))
      ensures !writeOk ==> View() == old(View()).(notice := Notice(Failure, "Failed to add page"))
    {
      if !writeOk {
        notice := Notice(Failure, "Failed to add page");
        return None;
      }
      written := Some(Stored(PageDocument(newPage), stamp));
      newPage := BlankPage;
      pages := Reloaded(pages, reload);
      notice := Notice(Success, "Page added! Refresh to see in navigation.");
    }

    method DeleteCustomPage(id: string, confirmed: bool, writeOk: bool, reload: Option<seq<Entry<CustomPage>>>)
      returns (deleted: Option<string>)
      modifies this
      ensures deleted == if confirmed && writeOk then Some(id) else None
      ensures !confirmed ==> View() == old(View())
      ensures confirmed ==> View() == old(View()).(
                pages := if writeOk then Reloaded(old(pages), reload) else old(pages),
                notice := Report(writeOk, "Page deleted!", "Failed to delete page"))
    {
      if !confirmed {
        return None;
      }
      deleted := if writeOk then Some(id) else None;
      if writeOk {
        pages := Reloaded(pages, reload);
      }
      notice := Report(writeOk, "Page deleted!", "Failed to delete page");
    }

    // --- Activities ---------------------------------------------------------

    method LoadActivities(answer: Option<seq<Entry<Activity>>>)
      modifies this
      ensures View() == old(View()).(activities := Reloaded(old(activities), answer))
    {
      activities := Reloaded(activities, answer);
    }

    /** The activity files input: `Array.from(e.target.files)`. */
    method ChooseActivityFiles(files: seq<File>)
      modifies this
      ensures View() == old(View()).(activityFiles := files)
    {
      activityFiles := files;
    }

    /** `addActivity`: uploads every chosen file, writes the draft with the
        image URLs as `photos` and the rest as `videos` (replacing whatever
        lists the draft held), then resets the draft and the files. */
    method AddActivity(downloads: seq<Option<string>>, writeOk: bool, stamp: int, reload: Option<seq<Entry<Activity>>>)
      returns (written: Option<Stored<Activity>>)
      requires |downloads| == |activityFiles|
      modifies this
      ensures var ok := AllUploaded(downloads) && writeOk;
              written == if ok then
                var media := Tagged(old(activityFiles), Urls(downloads));
                Some(Stored(old(newActivity).(photos := Photos(media), videos := Videos(media)), stamp))
              else None
      ensures written.Some? ==> View() == old(View()).(
                newActivity := BlankActivity, activityFiles := [], activities := Reloaded(old(activities), reload),
                notice := Notice(Success, "Activity added!"))
      ensures written.None? ==> View() == old(View()).(notice := Notice(Failure, "Failed to add activity"))
    {
      var media := UploadActivityFiles(activityFiles, downloads);
      if media.Some? && writeOk {
        var photos := Photos(media.value);
        var videos := Videos(media.value);
        written := Some(Stored(newActivity.(photos := photos, videos := videos), stamp));
        ActivityAdded(reload);
      } else {
        written := None;
        notice := Notice(Failure, "Failed to add activity");
      }
    }

    /** What follows a successful activity write: the draft and the files
        are reset, the list is reloaded and the success message is shown. */
    method ActivityAdded(reload: Option<seq<Entry<Activity>>>)
      modifies this
      ensures View() == old(View()).(
                newActivity := BlankActivity, activityFiles := [], activities := Reloaded(old(activities), reload),
                notice := Notice(Success, "Activity added!"))
    {
      newActivity, activityFiles := BlankActivity, [];
      activities := Reloaded(activities, reload);
      notice := Notice(Success, "Activity added!");
    }

    method DeleteActivity(id: string, confirmed: bool, writeOk: bool, reload: Option<seq<Entry<Activity>>>)
      returns (deleted: Option<string>)
      modifies this
      ensures deleted == if confirmed && writeOk then Some(id) else None
      ensures !confirmed ==> View() == old(View())
      ensures confirmed ==> View() == old(View()).(
                activities := if writeOk then Reloaded(old(activities), reload) else old(activities),
                notice := Report(writeOk, "Activity deleted!", "Failed to delete activity"))
    {
      if !confirmed {
        return None;
      }
      deleted := if writeOk then Some(id) else None;
      if writeOk {
        activities := Reloaded(activities, reload);
      }
      notice := Report(writeOk, "Activity deleted!", "Failed to delete activity");
    }

    // --- Promotions ---------------------------------------------------------

    method LoadPromotions(answer: Option<seq<Entry<Promotion>>>)
      modifies this
      ensures View() == old(View()).(promotions := Reloaded(old(promotions), answer))
    {
      promotions := Reloaded(promotions, answer);
    }

    /** `addPromotion`: writes the draft as it is, then resets it and reloads. */
    method AddPromotion(writeOk: bool, stamp: int, reload: Option<seq<Entry<Promotion>>>)
      returns (written: Option<Stored<Promotion>>)
      modifies this
      ensures written == if writeOk then Some(Stored(old(newPromotion), stamp)) else None
      ensures writeOk ==> View() == old(View()).(
                newPromotion := BlankPromotion, promotions := Reloaded(old(promotions), reload),
                notice := Notice(Success, "Promotion added!"))
      ensures !writeOk ==> View() == old(View()).(notice := Notice(Failure, "Failed to add promotion"))
    {
      if !writeOk {
        notice := Notice(Failure, "Failed to add promotion");
        return None;
      }
      written := Some(Stored(newPromotion, stamp));
      newPromotion := BlankPromotion;
      promotions := Reloaded(promotions, reload);
      notice := Notice(Success, "Promotion added!");
    }

    /** `togglePromotion`: writes only `active := !currentStatus` to the
        promotion `id` (see `Toggled`), then reloads. */
    method TogglePromotion(id: string, currentStatus: bool, writeOk: bool, reload: Option<seq<Entry<Promotion>>>)
      returns (update: Option<Entry<bool>>)
      modifies this
      ensures update == if writeOk then Some(Entry(id, !currentStatus)) else None
      ensures View() == old(View()).(
                promotions := if writeOk then Reloaded(old(promotions), reload) else old(promotions),
                notice := Report(writeOk, "Promotion updated!", "Failed to update promotion"))
    {
      update := if writeOk then Some(Entry(id, !currentStatus)) else None;
      if writeOk {
        promotions := Reloaded(promotions, reload);
      }
      notice := Report(writeOk, "Promotion updated!", "Failed to update promotion");
    }
  }

  /** Saving the settings on one visit and loading them on a fresh screen,
      with the store handing back the record it was given, brings back the
      settings as they were before the save; the editor's screen changes
      only its message. */
  method SettingsSurviveAReload(editor: CmsPage, stamp: int) returns (visitor: CmsPage)
    modifies editor
    ensures fresh(visitor)
    ensures visitor.View() == InitialState.(settings := old(editor.settings))
    ensures editor.View() == old(editor.View()).(notice := Report(true, "Website settings saved!", "Failed to save settings"))
  {
    var written := editor.SaveSettings(true, stamp);
    visitor := new CmsPage();
    visitor.LoadSettings(Some(written.value.data));
  }
}
