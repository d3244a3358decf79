/** The records the content-management tabs edit and store. Each is a flat
    document; the list tabs hold them as `Entry` values (id plus data). */
module Entities {

  /** The `settings/website` singleton. */
  datatype Settings = Settings(
    siteTitle: string, siteSubtitle: string, motto: string,
    contactEmail: string, contactPhone: string, location: string,
    showBanner: bool, maintenanceMode: bool)

  const InitialSettings := Settings(
    "MAAGAP Kuwait", "Multigeneration of Active Apostolic Guardians Association",
    "THE TRUTH STILL STAND", "info@maagapkuwait.org", "", "Kuwait", true, false)

  datatype Banner = Banner(title: string, description: string, imageUrl: string, link: string, active: bool)

  const BlankBanner := Banner("", "", "", "", true)

  /** A custom page; its slug is referenced by the navigation bar, not
      checked for uniqueness. */
  datatype CustomPage = CustomPage(title: string, slug: string, content: string, order: int, showInNav: bool)

  const BlankPage := CustomPage("", "", "", 0, true)

  datatype Activity = Activity(
    title: string, description: string, date: string, location: string,
    photos: seq<string>, videos: seq<string>)

  const BlankActivity := Activity("", "", "", "", [], [])

  datatype Promotion = Promotion(title: string, description: string, validUntil: string, imageUrl: string, active: bool)

  const BlankPromotion := Promotion("", "", "", "", true)

  /** The `content/history` singleton: four free-text sections. */
  datatype History = History(beginning: string, growth: string, present: string, commitment: string)

  const BlankHistory := History("", "", "", "")

  /** One uploaded activity file, tagged by kind. */
  datatype MediaKind = Image | Video
  datatype Media = Media(url: string, kind: MediaKind)
}
