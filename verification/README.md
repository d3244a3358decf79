# MAAGAP Kuwait website — a Dafny model of its logic

The MAAGAP Kuwait website is a Next.js site for a members' association. Its
public pages are static. Four parts of it hold logic, and this project
models those four and proves their properties:

- **Admin dashboard** (`Admin`). Derives the visible member list from the
  loaded members using a type filter, a status filter and a case-insensitive
  search. Folds the financial records into a balance, total income and total
  expenses.
- **Content-management screen** (`Cms`). Loads and saves the site settings
  and the history text, which are single documents. Adds and deletes
  banners, custom pages and activities. Adds promotions and toggles them on
  and off. It derives a page's slug from its title, and it sorts uploaded
  activity files into photos and videos.
- **Registration form** (`Register`). Step 1 picks a classification. Step 2
  fills a large form, and submitting it stores one member document with a
  derived age, the uploaded photo's URL and the status `Active`.
- **Navigation bar** (`Navigation`). Six fixed links, then one link per
  custom page that the store lists for the menu, then Admin. It also tracks
  the scrolled look, the mobile menu and the highlighted link.

Shared pieces:

- `Common` holds optional values, the status message, files, listed and
  written documents, and two helpers for uploads and reloads.
- `Seqs` holds `filter`/`map` over sequences and their laws.
- `Text` holds JavaScript's `toLowerCase`, `includes`, `startsWith` and the
  `\s` class used by the slug rule.
- `Entities` holds the CMS records.
- `Documents` holds the schema-less member document.

The hosted document store, the object store and the clock are not called.
They become parameters of the operations that use them:

- whether a write succeeded (`writeOk`);
- the URL an upload returned, or `None` when it threw;
- the list a reload returned, or `None` when the query failed;
- the server timestamp (`stamp`);
- today's date, and the date the browser parses out of `dateOfBirth`.

Each adding or saving operation returns the document it writes, so that its
contract can state what is stored.

The model records three facts about the code as written. They are proved,
not corrected:

- The dashboard's type filter offers `Maggot` and `Member`. Registration
  stores `memberClassification` (`Regular`, `Associate` or `Honorary`) and
  never a `memberType` field. So any type other than `All` hides every
  registered member: `Register.RegisterPage.HandleSubmit`,
  `Admin.RegisteredMemberView`, `Admin.TypeFilterHidesUntypedMembers` and
  `Admin.ClassificationsMatchNoOfferedType`.
- Adding a custom page does not check its slug against the existing ones.
  Two titles can yield the same slug (`Cms.DifferentTitlesCanShareASlug`).
  Two menu links then share an href and are highlighted together
  (`Navigation.NavHrefsDistinctIff`, `Navigation.SharedSlugHighlightsBoth`).
- The derived age is this year minus the birth year. Before the birthday it
  is one more than the completed years
  (`Register.DerivedAgeOverstatesBeforeBirthday`).

## Model

| member | source | states |
|---|---|---|
| Admin.MemberView | app/admin/page.js:81-85 | each field the dashboard reads (first name, last name, email, type, status) is the string the document holds under that key, and is absent exactly when the key is missing or holds a non-string |
| Admin.MatchesSearch | app/admin/page.js:83-85 | an empty term matches every member; a non-empty term matches only if it fits inside the full name or the email |
| Admin.Keep | app/admin/page.js:80-87 | a kept member has the chosen type and the chosen status whenever these are not `All`; with both at `All` and an empty term everyone is kept |
| Admin.FilteredMembers | app/admin/page.js:80-88 | a member is shown iff it was loaded and passes the type test, the status test and the search test; the shown list is a subsequence of the loaded list, so loading order is kept |
| Admin.FilteredMembersAppend | app/admin/page.js:80-88 | loading one more member appends it to the shown list exactly when it passes; nothing already shown moves |
| Admin.NoFilterShowsEveryone | app/admin/page.js:81-83 | with both filters at `All` and an empty search box, the shown list is the loaded list |
| Admin.SearchIgnoresCase | app/admin/page.js:84-85 | two search terms that lower-case to the same string select the same members |
| Admin.SearchIsSubstringMatch | app/admin/page.js:83-85 | a non-empty term matches iff, ignoring case, it occurs somewhere in `firstName lastName` or in the email; a member without an email can only match by name |
| Admin.RegisteredMemberView | app/register/page.js:88-91 | a member document written by registration has no member type and has status `Active` in the dashboard's view |
| Admin.TypeFilterShowsOnlyThatType | app/admin/page.js:81 | with a type other than `All` chosen, every shown member has exactly that type |
| Admin.TypeFilterHidesUntypedMembers | app/admin/page.js:160-162 | when no loaded member has a type, choosing any type other than `All` (including the offered `Maggot` and `Member`) shows an empty list |
| Admin.ClassificationsMatchNoOfferedType | app/admin/page.js:160-162 | a member whose type were one of the registration classifications `Regular`, `Associate`, `Honorary` would still be hidden by `Maggot` and by `Member` |
| Admin.Balance | app/admin/page.js:90-94 | the balance of no records is 0 |
| Admin.BalanceAppend | app/admin/page.js:90-94 | appending a record raises the balance by its amount if its type is `IN`, and lowers it by its amount otherwise |
| Admin.TotalIncome | app/admin/page.js:96 | total income is 0 when no record is `IN`, and is non-negative when no amount is negative |
| Admin.TotalExpenses | app/admin/page.js:97 | total expenses are 0 when no record is `OUT`, and are non-negative when no amount is negative |
| Admin.TotalsAppend | app/admin/page.js:96-97 | appending a record adds its amount to total income if it is `IN`, to total expenses if it is `OUT`, and to neither otherwise |
| Admin.BalanceDecomposes | app/admin/page.js:90-97 | the balance equals total income, minus total expenses, minus the amounts of records whose type is neither `IN` nor `OUT` |
| Admin.BalanceIsIncomeMinusExpenses | app/admin/page.js:90-97 | when every record is `IN` or `OUT`, the balance is total income minus total expenses |
| Admin.SummaryBounds | app/admin/page.js:90-97 | with non-negative amounts both totals are non-negative and the balance lies between minus all outflow and total income |
| Text.Lower | app/admin/page.js:84 | `toLowerCase` keeps the length and lowers each character on its own |
| Text.LowerFixesExactlyLowercase | app/admin/page.js:84 | a lowered string has no upper-case letter, and lowering leaves a string unchanged iff it has none |
| Text.StartsWith | app/admin/cms/page.js:236 | `startsWith` holds iff the prefix is no longer than the string and agrees with it character by character |
| Text.Contains | app/admin/page.js:84-85 | every string includes `''`, a string includes each of its prefixes, and nothing includes a longer string |
| Text.ContainsAt | app/admin/page.js:84-85 | `includes` holds iff the term occurs at some position |
| Text.Hyphenate | app/admin/cms/page.js:194 | `replace(/\s+/g, '-')` never lengthens a string and empties only the empty string |
| Text.HyphenateLeavesNoWhitespace | app/admin/cms/page.js:194 | no whitespace is left after the replacement |
| Text.HyphenateFixesExactlyWhitespaceFree | app/admin/cms/page.js:194 | the replacement leaves a string unchanged iff it has no whitespace |
| Text.HyphenateRun | app/admin/cms/page.js:194 | a maximal whitespace run at the front becomes a single hyphen |
| Text.HyphenateAppend | app/admin/cms/page.js:194 | the replacement distributes over a concatenation whose left part does not end in whitespace |
| Text.Slugify | app/admin/cms/page.js:194 | a derived slug has no whitespace and no upper-case letter, is no longer than the title, and is empty only for an empty title |
| Text.SlugifyIdempotent | app/admin/cms/page.js:194 | deriving a slug from a derived slug gives it back unchanged |
| Cms.StoredSlug | app/admin/cms/page.js:194 | a non-empty entered slug is stored verbatim; otherwise the slug derived from the title is stored, which is already in derived form; the stored slug is empty only if both the entered slug and the title are |
| Cms.PageDocument | app/admin/cms/page.js:192-196 | the stored page keeps the draft's title, content, order and menu flag; its slug is the entered one, or else the one derived from the title |
| Cms.DifferentTitlesCanShareASlug | app/admin/cms/page.js:189-205 | the titles `About` and `about` are both stored with the slug `about` |
| Cms.Tag | app/admin/cms/page.js:236 | a file is tagged as an image iff its MIME type starts with `image/`; anything else is a video |
| Cms.Tagged | app/admin/cms/page.js:230-239 | one media entry per file, in order, each with its file's URL and tag |
| Cms.UploadActivityFiles | app/admin/cms/page.js:230-239 | the loop yields media iff every upload succeeded, and then exactly one tagged entry per file in upload order |
| Cms.Photos | app/admin/cms/page.js:245 | `photos` holds the URL of every image entry and only URLs of image entries, no more than there are entries |
| Cms.Videos | app/admin/cms/page.js:246 | `videos` holds the URL of every video entry and only URLs of video entries, no more than there are entries |
| Cms.SplitKeepsEveryFile | app/admin/cms/page.js:245-246 | every media entry lands in exactly one of `photos` and `videos`, so the counts add up |
| Cms.SplitFollowsMimeType | app/admin/cms/page.js:236-246 | `photos` holds exactly the URLs of files whose MIME type starts with `image/`, and `videos` all the others, each in upload order |
| Cms.Toggled | app/admin/cms/page.js:308 | the update changes only the promotion's `active` flag and sets it to the negation of the status the button showed |
| Cms.ToggleTwiceRestores | app/admin/cms/page.js:306-314 | toggling twice, each time from the loaded flag, restores the promotion |
| Cms.CmsPage.constructor | app/admin/cms/page.js:18-78 | the screen starts with the default site settings, blank drafts, no files, empty lists and no message |
| Cms.CmsPage.LoadSettings | app/admin/cms/page.js:103-113 | the stored settings replace the local ones only when the document exists; nothing else changes |
| Cms.CmsPage.SaveSettings | app/admin/cms/page.js:115-125 | on success writes the whole current settings record with the timestamp; only the message changes locally |
| Cms.CmsPage.LoadHistory | app/admin/cms/page.js:317-327 | the stored history replaces the local one only when the document exists |
| Cms.CmsPage.SaveHistory | app/admin/cms/page.js:329-342 | on success writes the whole current history record with the timestamp; only the message changes |
| Cms.CmsPage.LoadBanners | app/admin/cms/page.js:128-137 | the answer replaces the banner list; a failed query keeps the old list |
| Cms.CmsPage.ChooseBannerFile | app/admin/cms/page.js:521 | the file input sets only the chosen banner file |
| Cms.CmsPage.AddBanner | app/admin/cms/page.js:139-164 | writes the draft with the uploaded URL (`''` when no file was chosen); on success the draft and the file are reset and the list reloaded; a failed upload or write changes only the message |
| Cms.CmsPage.DeleteBanner | app/admin/cms/page.js:166-175 | an unconfirmed delete changes nothing; a confirmed one deletes the id, reloads on success, and sets the matching message |
| Cms.CmsPage.LoadPages | app/admin/cms/page.js:178-187 | the answer replaces the page list; a failed query keeps it |
| Cms.CmsPage.AddCustomPage | app/admin/cms/page.js:189-205 | writes the draft with its stored slug, whatever slugs exist already; on success the draft is reset and the list reloaded; on failure only the message changes |
| Cms.CmsPage.DeleteCustomPage | app/admin/cms/page.js:207-216 | as for banners, on the custom pages |
| Cms.CmsPage.LoadActivities | app/admin/cms/page.js:219-228 | the answer replaces the activity list; a failed query keeps it |
| Cms.CmsPage.ChooseActivityFiles | app/admin/cms/page.js:674 | the file input sets only the chosen activity files |
| Cms.CmsPage.AddActivity | app/admin/cms/page.js:241-264 | writes the draft with `photos` and `videos` taken from the tagged uploads, replacing the draft's own lists; on success the draft and files are reset; a failed upload or write changes only the message |
| Cms.CmsPage.ActivityAdded | app/admin/cms/page.js:255-258 | after a successful write the activity draft and the chosen files are reset, the list is reloaded and the success message shown; nothing else changes |
| Cms.CmsPage.DeleteActivity | app/admin/cms/page.js:266-275 | as for banners, on the activities |
| Cms.CmsPage.LoadPromotions | app/admin/cms/page.js:278-287 | the answer replaces the promotion list; a failed query keeps it |
| Cms.CmsPage.AddPromotion | app/admin/cms/page.js:289-304 | writes the draft as it is; on success the draft is reset and the list reloaded; on failure only the message changes |
| Cms.CmsPage.TogglePromotion | app/admin/cms/page.js:306-314 | the update sent is `active := !currentStatus` for that id only; on success the list is reloaded; the message reports the outcome |
| Cms.SettingsSurviveAReload | app/admin/cms/page.js:103-125 | saving the settings and loading them on a fresh screen gives that screen the editor's settings from before the save, with everything else initial; the editor's screen changes only its message |
| Common.UploadedUrl | app/admin/cms/page.js:139-144 | no chosen file gives `''`; otherwise the upload's answer, and a failed upload gives no URL |
| Common.Reloaded | app/admin/cms/page.js:128-137 | a reload that answered replaces the list with the answer; one that threw keeps the list as it was |
| Register.Changed | app/register/page.js:40-43 | the named field becomes `checked` for a checkbox and `value` otherwise; every other field is unchanged |
| Register.EducationChanged | app/register/page.js:45-50 | one field of one education level becomes `value`; that level's other fields and every other field are unchanged |
| Register.LastEditWins | app/register/page.js:40-43 | a later edit of a field overrides an earlier one |
| Register.EditsOfDifferentFieldsCommute | app/register/page.js:40-43 | edits of two different fields give the same form in either order |
| Register.EditsKeepTheFields | app/register/page.js:40-50 | editing a field the form already has keeps its set of fields |
| Register.DerivedAge | app/register/page.js:81-86 | a truthy entered age is kept; otherwise, if a date of birth was entered, the age is this year minus the birth year; otherwise the entered value stays |
| Register.DerivedAgeOverstatesBeforeBirthday | app/register/page.js:81-86 | the derived age exceeds the completed years by one exactly when the birthday has not yet come this year, and equals them otherwise |
| Register.MemberDocument | app/register/page.js:88-91 | the stored document is the form plus `age`, `photoURL`, `status` forced to `Active` whatever the form held, and both timestamps |
| Register.NoMemberTypeStored | app/register/page.js:15-35 | a document built from a form with the blank form's fields has no `memberType` field |
| Register.RegisterPage.constructor | app/register/page.js:10-38 | the page starts at step 1 with no classification, no photo, the blank form and no message |
| Register.RegisterPage.SelectMemberType | app/register/page.js:62-66 | for one of the three classifications: records it, copies it into `memberClassification`, moves to step 2, keeps the blank form's fields; nothing else changes |
| Register.RegisterPage.ChangeMemberType | app/register/page.js:187 | goes back to step 1 and keeps the form as it is |
| Register.RegisterPage.HandleChange | app/register/page.js:40-43 | for an input naming a blank-form field, only the form changes, as `Changed` states, and it keeps exactly the blank form's fields |
| Register.RegisterPage.HandleEducationChange | app/register/page.js:45-50 | for one of the five education levels, only the form changes, as `EducationChanged` states, and it keeps exactly the blank form's fields |
| Register.RegisterPage.ChoosePhoto | app/register/page.js:52-60 | a chosen file replaces the photo; an empty choice changes nothing |
| Register.RegisterPage.HandleSubmit | app/register/page.js:68-122 | on success writes the member document with the uploaded URL (`''` without a photo) and the derived age, a document with no `memberType` field, then returns to a blank step 1 with the welcome message; a failed upload or write keeps step and form and sets the failure message |
| Register.RegisterPage.Reset | app/register/page.js:94-115 | after a successful submission: step 1, no classification, no photo, the blank form; the message is kept |
| Navigation.NavLinks | components/Navigation.js:40-57 | the six defaults, then one link per custom page with href `/` + slug and the title as label, in load order, then Admin; length 7 + pages, first `/`, last `/admin` |
| Navigation.PageLink | components/Navigation.js:52-55 | a custom page's link is `/` followed by its slug, labelled with its title |
| Navigation.NavLinksAppend | components/Navigation.js:50-57 | more custom pages only insert links before Admin |
| Navigation.NavHrefsDistinctIff | components/Navigation.js:50-57 | every link has its own href iff no two custom pages share a slug and no slug is empty or one of `maagap-prayer`, `gallery`, `about`, `history-mkd`, `members`, `admin` |
| Navigation.AtMostOneActive | components/Navigation.js:96 | with distinct hrefs at most one link is highlighted |
| Navigation.SharedSlugHighlightsBoth | components/Navigation.js:155 | two custom pages with the same slug are highlighted together |
| Navigation.MenuQueryAnswer | components/Navigation.js:27-31 | an answer to the menu query holds only stored pages with `showInNav` true and is no longer than the store |
| Navigation.MenuQueryOnlyMenuPages | components/Navigation.js:27-31 | any rearrangement of the menu pages holds only stored pages with `showInNav` true, and no more of them than the store has |
| Navigation.InsertByOrder | components/Navigation.js:30 | inserting a page adds exactly that page (as a multiset) |
| Navigation.SortByOrder | components/Navigation.js:30 | the result is a permutation of its input, ascending by `order` |
| Navigation.MenuQueryAnswerable | components/Navigation.js:27-31 | the menu pages sorted by `order` are an answer to the menu query |
| Navigation.OnScroll | components/Navigation.js:18 | the bar counts as scrolled iff `scrollY > 20`; nothing else changes |
| Navigation.ToggleMenu | components/Navigation.js:111 | the menu button flips the open flag and nothing else |
| Navigation.CloseMenu | components/Navigation.js:153 | a click on a mobile link closes the menu and nothing else |
| Navigation.LoadCustomPages | components/Navigation.js:25-38 | the answer replaces the custom pages; a failed query keeps the previous list |
| Navigation.FailedFirstLoadShowsFixedLinks | components/Navigation.js:13-57 | when the first load fails the bar shows just the six defaults and Admin |

## Left out

- The calls to the document store and the object store. Their outcomes are parameters. The storage paths built from `Date.now()` and the file name are not modelled. The order in which a query returns banners, activities and promotions is the store's.
- Admin.Balance: amounts are whole numbers (fils), not JavaScript floating point. `parseFloat` and the `toFixed(3)` display formatting are not modelled.
- The `handleAddTransaction` form, and the dashboard's loading of members and transactions. They only call the store and replace the lists wholesale.
- `confirm`, `alert`, `window.scrollTo`, the `FileReader` photo preview and the `loading`/`isSubmitting` busy flags. They have no effect on stored data; a declined `confirm` is the `confirmed` parameter.
- The field-edit handlers of the settings, banner, page, activity, promotion and history drafts. Each one replaces one field of a draft.
- Cms.SettingsSurviveAReload: the store is assumed to hand back the record it was given. The `updatedAt` stamp it also stores comes back on load and is dropped, as the next line says.
- The `updatedAt` timestamp that comes back when a singleton document is loaded. `Settings` and `History` keep only their own fields.
- The CMS records are typed. A stored document with missing or extra fields is not modelled there; the registration document alone is schema-less.
- Text.Lower: lower-cases only ASCII `A`-`Z`; `toLowerCase` on other letters is not modelled.
- Admin.MemberView: a `firstName`, `lastName` or `email` field that holds a non-string is treated as absent, so it prints as `undefined`. Search on a non-string email, which would throw, is treated as no match.
- Register.DerivedAge: today's date and the parsed birth date are parameters. The time zone of the parse and an unparseable date, which would give `NaN`, are not modelled.
- Register.RegisterPage.HandleSubmit: the message is cleared before the upload. Only its final value is stated.
- The concurrent start-up loads of the CMS screen (`Promise.all`) are modelled as separate load operations.
- Navigation.MenuQueryAnswer: ties in `order` come back in the store's own order. The predicate allows any such order, and `SortByOrder` is one valid answer.
- The rendered markup: classes, layout, and the static pages (home, about, gallery, prayer, history, members, the custom-page viewer).
