# home-showcase in Dafny

A model of the single-property showcase site home-showcase, with proofs about that model. The site has two halves.

The React front end:
- loads one property with its rooms;
- shows a hero of the first five photos;
- offers a full-screen photo gallery (single view or grid);
- lists the rooms as cards, each opening a per-room photo overlay;
- has a viewing-request form with client-side validation.

The FastAPI back end:
- validates the request body, including a phone validator that ignores separators;
- stores viewing requests;
- lists them by property with paging;
- updates their status against a whitelist;
- lists a property's rooms in display order.

## How the model is built

- Each stateful component is a class whose fields are the component's state:
  - `PhotoGallery`: `currentIndex`, `viewMode`;
  - `RoomModal`: `currentImageIndex`, `room`;
  - `RoomGrid`: `selectedRoom`, plus the mounted modal;
  - `App`: `showGallery`, plus the mounted gallery;
  - `ViewingForm`: `formData`, `validationErrors`;
  - the store behind `crud.py`: the viewing-request table;
  - `useDebounce`: `lastCallRef.current`.
- Their handlers are methods. Each method's contract gives the new state in terms of the old state.
- The rendering decisions and the queries are pure functions. Lemmas prove what the site relies on:
  - wrap-around navigation that can be undone and cycles back;
  - the combined image list keeps every room's images in order;
  - the gallery can only be opened over at least six images;
  - validation passes exactly when every rule passes;
  - an accepted phone holds 10–15 digits;
  - listings are filtered, newest first, capped at 100, and consecutive pages join;
  - a status update changes only that row's status;
  - accepted debounced calls are at least `delay` apart.
  - the room overlay resets to its first image only after rendering the new room at the old index, so switching to a room with at least one image and no more images than that index makes the render throw; a room with no images renders without the large image.
- Inputs the code reads from the environment become parameters:
  - the clock (`Date.now()` in `useDebounce`, the creation time of a row);
  - whether a chosen date lies before today;
  - whether the submit request throws;
  - the fetched property and the fetch error.

Modules:
- `Wrappers`: `Option`, `Result`.
- `Text`: ASCII whitespace, digits, `trim`.
- `ImageUrl`: `getImageUrl`, shared by four components.
- `Carousel`: index arithmetic.
- `Listing`: the property and room records, and the combined image list.
- `Gallery`, `RoomViewer`, `Hero`, `Card`, `Grid` and `Host` (`App`).
- `Form`.
- `Schemas`.
- `Sorting`.
- `Crud`.
- `Throttle` (`useDebounce`).

## Model

| member | source | states |
|---|---|---|
| Text.Trim | frontend/src/components/ViewingForm.jsx:30-32 | `trim()` result: no longer than the input, no whitespace at either end |
| Text.TrimStart | frontend/src/components/ViewingForm.jsx:30 | a suffix of the value, starting at a non-whitespace character, after only whitespace |
| Text.TrimEnd | frontend/src/components/ViewingForm.jsx:30 | a prefix of the value, ending at a non-whitespace character, followed by only whitespace |
| Text.TrimEmptyIff | frontend/src/components/ViewingForm.jsx:30 | the trimmed value is empty exactly when the value is all whitespace (so `!x.trim()` means blank) |
| Text.TrimKeepsMiddle | frontend/src/components/ViewingForm.jsx:30-32 | the trimmed value is the contiguous slice of the input left once the whitespace before and after it is removed, and only whitespace is removed |
| ImageUrl.LastSegment | frontend/src/components/PhotoGallery.jsx:8 | `split('/').pop()`: a suffix of the path containing no '/', preceded by '/' unless it is the whole path |
| ImageUrl.LastSegmentUnique | frontend/src/components/PhotoGallery.jsx:8 | those three properties determine the last segment, so the contract is a full specification |
| ImageUrl.LastSegmentWhole | frontend/src/components/PhotoGallery.jsx:8 | a path is its own last segment iff it has no '/' |
| ImageUrl.Resolve | frontend/src/components/PhotoGallery.jsx:7-10 | `getImageUrl`: "/src/assets/" followed by exactly the last '/'-separated segment of the path |
| ImageUrl.ResolveAll | frontend/src/components/PhotoGallery.jsx:137-151 | `images.map(getImageUrl)`: same length, element-wise `Resolve` |
| ImageUrl.ResolveIdempotent | frontend/src/components/PhotoGallery.jsx:7-10 | resolving an already resolved locator gives it back |
| ImageUrl.ResolveIgnoresDirectory | frontend/src/components/PhotoGallery.jsx:7-10 | any directory prefix is dropped: `dir/name` resolves to the asset directory plus `name` |
| Carousel.NextIndex | frontend/src/components/PhotoGallery.jsx:29-31 | `(i + 1) % n`: stays below n, moves to i + 1 and wraps from the last index to 0 |
| Carousel.PrevIndex | frontend/src/components/PhotoGallery.jsx:33-35 | `(i - 1 + n) % n`: stays below n, moves to i - 1 and wraps from 0 to the last index |
| Carousel.PrevAfterNext | frontend/src/components/PhotoGallery.jsx:29-35 | a step back undoes a step forward |
| Carousel.NextAfterPrev | frontend/src/components/PhotoGallery.jsx:29-35 | a step forward undoes a step back |
| Carousel.NextStepsNoWrap | frontend/src/components/PhotoGallery.jsx:29-31 | k forward steps that do not pass the last image land on i + k |
| Carousel.NextStepsAdd | frontend/src/components/PhotoGallery.jsx:29-31 | a forward steps then b forward steps equal a + b forward steps |
| Carousel.PrevStepsUndoNextSteps | frontend/src/components/RoomModal.jsx:32-38 | k backward steps undo k forward steps |
| Carousel.NextStepsInRange | frontend/src/components/RoomModal.jsx:32-34 | any number of forward steps keeps the index in range |
| Carousel.NextCycle | frontend/src/components/PhotoGallery.jsx:29-31 | n forward steps through n images return to the starting image |
| Carousel.PrevCycle | frontend/src/components/PhotoGallery.jsx:33-35 | n backward steps through n images return to the starting image |
| Listing.CombinedImages | frontend/src/components/PropertyHero.jsx:19-22 | the combined list starts with the property's own images; its length is theirs plus the rooms' part |
| Listing.FlatImages | frontend/src/App.jsx:134 | `rooms.flatMap(room => room.images)`: each room's images in room order (its contents are stated by FlatImagesAt and FlatImagesLength) |
| Listing.RoomImages | frontend/src/components/RoomModal.jsx:29 | `room.images \|\| []`: a missing image list counts as empty |
| Listing.FlatImagesAppend | frontend/src/components/PropertyHero.jsx:21 | flattening distributes over joined room lists |
| Listing.FlatImagesLength | frontend/src/components/PropertyHero.jsx:21 | the rooms' part is as long as all rooms' image lists together |
| Listing.FlatImagesAt | frontend/src/components/PropertyHero.jsx:21 | image j of room k sits at that room's offset plus j: rooms keep their order, each keeps its own |
| Listing.CombinedImagesAt | frontend/src/App.jsx:132-135 | in the gallery's list, image j of room k follows the property's images and the earlier rooms' images |
| Listing.CombinedImagesLength | frontend/src/App.jsx:132-135 | the gallery's list is as long as the property's images plus every room's images |
| Gallery.PhotoGallery.constructor | frontend/src/components/PhotoGallery.jsx:3-5 | mounting starts at `initialIndex` (default 0) in the single view |
| Gallery.PhotoGallery.GoNext | frontend/src/components/PhotoGallery.jsx:29-31 | the index takes one wrapping step forward, the mode stays, the index stays valid |
| Gallery.PhotoGallery.GoPrev | frontend/src/components/PhotoGallery.jsx:33-35 | the index takes one wrapping step back, the mode stays, the index stays valid |
| Gallery.PhotoGallery.ShowSingle | frontend/src/components/PhotoGallery.jsx:57 | switches to the single view and keeps the index |
| Gallery.PhotoGallery.ShowGrid | frontend/src/components/PhotoGallery.jsx:67 | switches to the grid view and keeps the index |
| Gallery.PhotoGallery.SelectGridImage | frontend/src/components/PhotoGallery.jsx:113-119 | a grid thumbnail shows that image in the single view |
| Gallery.PhotoGallery.SelectStripImage | frontend/src/components/PhotoGallery.jsx:137-140 | a strip thumbnail jumps to that image; the mode stays single |
| Gallery.PhotoGallery.HandleKey | frontend/src/components/PhotoGallery.jsx:13-18 | Escape asks to close; the arrows step in either mode; other keys change nothing; the mode never changes |
| Gallery.PhotoGallery.View | frontend/src/components/PhotoGallery.jsx:51-53 | the counter shows (index + 1, count) in both modes; main image and strip only in single, thumbnails only in grid, each the resolved image |
| RoomViewer.RoomModal.constructor | frontend/src/components/RoomModal.jsx:4 | mounting starts at image 0 |
| RoomViewer.RoomModal.ReceiveRoom | frontend/src/components/RoomModal.jsx:3-4 | a new `room` prop replaces the room and keeps the index as it was; no reset before the next render |
| RoomViewer.RoomModal.RunEffects | frontend/src/components/RoomModal.jsx:6-8 | after a successful render, the `[room]` effect resets the index to 0 iff the room differs from the one it last ran for |
| RoomViewer.RoomModal.Valid | frontend/src/components/RoomModal.jsx:68-73 | the overlay can render: the index points at an image, or there are none and no large image is drawn |
| RoomViewer.RoomModal.Settled | frontend/src/components/RoomModal.jsx:6-8 | the reset effect has run for the current room |
| RoomViewer.RoomModal.HasMultipleImages | frontend/src/components/RoomModal.jsx:30 | `images.length > 1` |
| RoomViewer.RoomModal.Images | frontend/src/components/RoomModal.jsx:29 | the shown room's `room.images \|\| []`, and no images while no room is given |
| RoomViewer.RoomModal.NextImage | frontend/src/components/RoomModal.jsx:32-34 | one wrapping step forward, only reachable with several images |
| RoomViewer.RoomModal.PrevImage | frontend/src/components/RoomModal.jsx:36-38 | one wrapping step back, only reachable with several images |
| RoomViewer.RoomModal.SelectThumbnail | frontend/src/components/RoomModal.jsx:102-107 | a thumbnail shows that image |
| RoomViewer.RoomModal.HandleKey | frontend/src/components/RoomModal.jsx:10-13 | only Escape is bound and it asks to close |
| RoomViewer.RoomModal.View | frontend/src/components/RoomModal.jsx:22-79 | defined only when the overlay can render; nothing without a room; main image (the current one, resolved) iff the room has images; arrows, strip and counter iff it has more than one |
| RoomViewer.ThreeImageTour | frontend/src/components/RoomModal.jsx:32-34 | three forward steps through three images visit 1, 2, then wrap to 0 |
| RoomViewer.SwapRoomResets | frontend/src/components/RoomModal.jsx:6-8 | from image 2 of a three-image room, a different room with no images or at least three renders and is then shown from image 0 |
| RoomViewer.SwapToSmallRoomCannotRender | frontend/src/components/RoomModal.jsx:73 | from image 2 of a three-image room, a room with one or two images is rendered with index 2, which it does not have, so the render throws |
| Hero.DisplayImages | frontend/src/components/PropertyHero.jsx:24 | `slice(0, 5)`: the first min(5, n) images of the combined list |
| Hero.ShowsAllPhotosButton | frontend/src/components/PropertyHero.jsx:71 | the button is drawn iff the combined list has more than five images |
| Hero.MainImage | frontend/src/components/PropertyHero.jsx:50-56 | the large image exists iff the first image is truthy, and is that image resolved |
| Hero.SideOf | frontend/src/components/PropertyHero.jsx:60-64 | all but the first shown image, each resolved and labelled with its position index + 2 |
| Hero.SideImages | frontend/src/components/PropertyHero.jsx:60-68 | the next up to four images, resolved, labelled with position index + 2 |
| Hero.View | frontend/src/components/PropertyHero.jsx:2 | nothing without a property, otherwise main, side images and the button flag |
| Hero.SideImagesAtMostFour | frontend/src/components/PropertyHero.jsx:60 | never more than four small images |
| Hero.ButtonIffPhotosHidden | frontend/src/components/PropertyHero.jsx:71-73 | the button is drawn exactly when the hero leaves some photo unshown |
| Card.IconFor | frontend/src/components/RoomCard.jsx:11-50 | a known room type gets its own icon; a missing or unknown type falls back to the living icon |
| Card.IconForTypeName | frontend/src/components/RoomCard.jsx:12-48 | every icon is found under its own key: icons and keys are in one-to-one correspondence |
| Card.Thumbnail | frontend/src/components/RoomCard.jsx:7 | a thumbnail exists iff the room has a truthy first image, and is that image resolved |
| Card.ImageCount | frontend/src/components/RoomCard.jsx:8 | `room.images?.length \|\| 0` is the length of the room's image list |
| Card.ShowsCountBadge | frontend/src/components/RoomCard.jsx:72 | the image-count badge is drawn iff the room has more than one image |
| Card.PreviewWith | frontend/src/components/RoomCard.jsx:95-99 | a preview exists iff there are features; it is the first feature, or the first two around the separator |
| Card.Join | frontend/src/components/RoomCard.jsx:97 | `join`: "" for no element, the element itself for one, the two elements around the separator for two |
| Card.FeaturePreviewAsWritten | frontend/src/components/RoomCard.jsx:95-97 | the preview with the separator as written in the source |
| Card.FeaturePreview | frontend/src/components/RoomCard.jsx:95-97 | the preview with the intended " · " separator |
| Card.GarbledSeparatorShows | frontend/src/components/RoomCard.jsx:97 | as written, two features show a stray 'Â' before the dot |
| Card.FeaturePreviewSeparator | frontend/src/components/RoomCard.jsx:97 | with the intended separator the features are joined by " · " and no 'Â' appears |
| Card.CardCover | frontend/src/components/RoomCard.jsx:59-69 | the card shows the room's first image, resolved, when there is a thumbnail, else the room-type icon |
| Grid.RoomGrid.RoomCount | frontend/src/components/RoomGrid.jsx:21 | the heading's count is the number of rooms, positive whenever the grid is drawn |
| Grid.RoomGrid.Rendered | frontend/src/components/RoomGrid.jsx:8-10 | the grid is drawn iff `rooms` is present and non-empty |
| Grid.RoomGrid.constructor | frontend/src/components/RoomGrid.jsx:6 | no room is selected and no modal is mounted |
| Grid.RoomGrid.SelectRoom | frontend/src/components/RoomGrid.jsx:27-43 | a card click selects its room; a new modal starts at image 0; a mounted modal receives the room with its index unchanged, its effect still to run |
| Grid.RoomGrid.CloseModal | frontend/src/components/RoomGrid.jsx:41 | closing clears the selection and unmounts the modal |
| Grid.RoomGrid.ModalShown | frontend/src/components/RoomGrid.jsx:38 | the modal is drawn iff the grid is drawn and a room is selected |
| Grid.ReopenStartsAtFirstImage | frontend/src/components/RoomGrid.jsx:38-43 | closing and reopening a room starts its images again from the first |
| Grid.SwitchToSmallRoomCannotRender | frontend/src/components/RoomGrid.jsx:27-43 | with a room open at its third image, activating the card of a room with one or two images leaves a modal whose next render throws |
| Grid.SwitchRoomThenReset | frontend/src/components/RoomGrid.jsx:27-43 | switching to a room with no images or at least three renders, and its effect then shows that room from the first image |
| Host.RenderPage | frontend/src/App.jsx:13-71 | loading wins, then a truthy error (with its message), then a missing property, then the full page |
| Host.ErrorShown | frontend/src/App.jsx:26 | the error page is chosen for a truthy error: present and not the empty string |
| Host.App.constructor | frontend/src/App.jsx:10-11 | the fetch is under way and the gallery flag is false |
| Host.App.FetchSettled | frontend/src/App.jsx:10 | the fetch settles with data or an error, loading cleared |
| Host.App.ShowAllPhotos | frontend/src/App.jsx:112 | the hero's callback sets the flag; a newly mounted gallery starts at image 0 in the single view over the combined list |
| Host.App.CloseGallery | frontend/src/App.jsx:136 | the gallery's close clears the flag and unmounts it |
| Host.App.GalleryShown | frontend/src/App.jsx:130 | the gallery is drawn iff the full listing page is rendered and the flag is set |
| Host.OpenGalleryCanNavigate | frontend/src/App.jsx:130-138 | an open gallery always has images, so its navigation is defined |
| Host.OpenAndEscape | frontend/src/App.jsx:130-138 | Escape in an opened gallery asks to close, and closing hides the gallery |
| Form.NameError | frontend/src/components/ViewingForm.jsx:30-34 | the name passes iff its trimmed length is at least 2; "Name is required" iff it is blank; "Name must be at least 2 characters" for one character |
| Form.EmailShapeIsRegex | frontend/src/components/ViewingForm.jsx:38 | the positional reading of `^[^\s@]+@[^\s@]+\.[^\s@]+$` accepts exactly what the regex accepts |
| Form.EmailRegex | frontend/src/components/ViewingForm.jsx:38 | `^[^\s@]+@[^\s@]+\.[^\s@]+$` as a split into three non-empty runs free of whitespace and '@' around one '@' and one '.' |
| Form.PhoneRegex | frontend/src/components/ViewingForm.jsx:44 | `^\+?[\d\s\-()]{10,}$`: an optional '+' and then ten or more digits, whitespace, '-', '(' or ')' |
| Form.EmailShapeGivesRegex | frontend/src/components/ViewingForm.jsx:38 | a string of the positional shape splits into the regex's three `[^\s@]+` parts |
| Form.EmailRegexGivesShape | frontend/src/components/ViewingForm.jsx:38 | a regex match has one '@', a later '.', and no whitespace or other '@' |
| Form.BlankEmailHasNoShape | frontend/src/components/ViewingForm.jsx:36-38 | a blank email never matches the regex |
| Form.EmailError | frontend/src/components/ViewingForm.jsx:36-40 | the email passes iff it matches the regex; "Email is required" iff it is blank; "Please enter a valid email" when not blank and not matching |
| Form.PhoneError | frontend/src/components/ViewingForm.jsx:42-46 | the phone passes iff it is not blank and matches `^\+?[\d\s\-()]{10,}$`; "Phone is required" iff blank; "Please enter a valid phone number" when not blank and not matching |
| Form.DateError | frontend/src/components/ViewingForm.jsx:48-57 | the date passes iff present and not before today; "Preferred date is required" iff empty; "Please select a future date" when before today |
| Form.ErrorsOf | frontend/src/components/ViewingForm.jsx:28-57 | one error entry per failing rule, with that rule's message |
| Form.ErrorsInFieldOrder | frontend/src/components/ViewingForm.jsx:28-57 | filling the map rule by rule in field order gives the same map |
| Form.Errors | frontend/src/components/ViewingForm.jsx:27-59 | the error map of the form data: a field has an entry iff its rule fails, holding that rule's message |
| Form.ErrorsOfEmptyIff | frontend/src/components/ViewingForm.jsx:60 | no entry iff every rule passes |
| Form.NoKeysIffEmpty | frontend/src/components/ViewingForm.jsx:60 | `Object.keys(errors).length === 0` holds exactly for the empty map |
| Form.ValidIffAllRulesPass | frontend/src/components/ViewingForm.jsx:27-61 | `validate()` is true iff name, email, phone and date each pass; time and message never fail |
| Form.ViewingForm.constructor | frontend/src/components/ViewingForm.jsx:7-16 | every field starts empty, with no errors |
| Form.ViewingForm.HandleChange | frontend/src/components/ViewingForm.jsx:18-25 | stores the value; clears that field's error to '' only when one is showing |
| Form.ViewingForm.Validate | frontend/src/components/ViewingForm.jsx:27-61 | replaces the errors by `Errors` of the data and returns whether there are none |
| Form.ViewingForm.Submit | frontend/src/components/ViewingForm.jsx:63-85 | sends the data iff validation passes, and resets every field unless the request throws |
| Form.EmptyFormFields | frontend/src/components/ViewingForm.jsx:74-81 | the reset form has exactly the six fields |
| Schemas.Clean | backend/app/schemas.py:62 | removes separators (whitespace, '-', '(', ')', '.') and keeps every other character |
| Schemas.Separator | backend/app/schemas.py:62 | the class `[\s\-\(\)\.]`: ASCII whitespace, '-', '(', ')' or '.' |
| Schemas.BackendPhonePattern | backend/app/schemas.py:63 | `^\+?\d{10,15}$`: 10 to 15 digits, optionally after one leading '+' |
| Schemas.ValidatePhone | backend/app/schemas.py:59-65 | accepted iff the cleaned phone is an optional '+' and 10–15 digits; returns the value unchanged; otherwise the fixed message |
| Schemas.CleanAppend | backend/app/schemas.py:62 | cleaning distributes over concatenation |
| Schemas.CleanIdempotent | backend/app/schemas.py:62 | cleaning twice equals cleaning once |
| Schemas.CleanKeepsDigits | backend/app/schemas.py:62 | cleaning keeps every digit |
| Schemas.AllDigitsCount | backend/app/schemas.py:63 | a string of digits has as many digits as characters |
| Schemas.DigitCountAppend | backend/app/schemas.py:63 | digit counts add over concatenation |
| Schemas.AcceptedDigitCount | backend/app/schemas.py:62-63 | an accepted phone holds 10 to 15 digits, however it is punctuated |
| Schemas.SeparatorsIgnored | backend/app/schemas.py:62-63 | a phone is accepted iff its cleaned form is |
| Schemas.CleanFormPhoneChars | backend/app/schemas.py:62 | cleaning a string of the form's phone characters leaves exactly its digits |
| Schemas.FormPhoneAcceptedIffDigits | backend/app/schemas.py:62-63 | a phone the form's regex accepts is accepted by the server iff it has 10–15 digits |
| Schemas.FormAndServerDisagreeOnDashes | backend/app/schemas.py:63 | ten dashes pass the form's regex but the server refuses them |
| Schemas.DashesHaveNoDigits | backend/app/schemas.py:63 | a run of dashes holds no digit |
| Schemas.NameIssues | backend/app/schemas.py:52 | the name passes iff it has 2 to 100 characters; shorter reports NameTooShort, longer NameTooLong |
| Schemas.PhoneIssues | backend/app/schemas.py:54 | the phone passes iff it has 10 to 30 characters and the validator accepts it; shorter reports PhoneTooShort, longer PhoneTooLong, otherwise the validator's message |
| Schemas.MessageIssues | backend/app/schemas.py:57 | the message passes iff absent or at most 500 characters; otherwise MessageTooLong |
| Schemas.Issues | backend/app/schemas.py:49-57 | no issue iff the name, phone and message constraints all hold; every field's issues are reported, and nothing else |
| Schemas.ValidateCreate | backend/app/schemas.py:49-65 | the body is accepted unchanged iff it has no issue; otherwise every issue is reported |
| Schemas.FormNameLongEnough | backend/app/schemas.py:52 | a name the form accepts is long enough for the server |
| Sorting.InsertBy | backend/app/crud.py:25 | inserting into a sorted list keeps it sorted and adds exactly that element |
| Sorting.SortBy | backend/app/crud.py:25 | `order_by`: sorted by the key and a permutation of the input |
| Sorting.SortByMembers | backend/app/crud.py:25 | sorting keeps exactly the rows it was given |
| Sorting.SortBySorted | backend/app/crud.py:25 | an already ordered list is unchanged by sorting |
| Sorting.SortByIdempotent | backend/app/crud.py:25 | sorting twice equals sorting once |
| Crud.FindRequest | backend/app/crud.py:69-71 | finds a row with that id if any, and none exactly when no row has it |
| Crud.FindRequestUnique | backend/app/crud.py:69-71 | with unique ids the lookup finds the one row with that id |
| Crud.Selected | backend/app/crud.py:61-62 | a row is kept iff the property id is falsy (absent or 0) or equals the row's |
| Crud.FilterRequests | backend/app/crud.py:61-62 | keeps exactly the rows of the property, or every row when the id is absent or 0 |
| Crud.FilterRequestsCounts | backend/app/crud.py:61-62 | each selected row is kept as often as the table holds it and every other row is dropped, so the listing total is exact even with identical rows |
| Crud.NoFilterWhenFalsy | backend/app/crud.py:61 | an absent or zero property id filters nothing out |
| Crud.OrderedRequests | backend/app/crud.py:65 | a permutation of the filtered rows, newest first |
| Crud.Page | backend/app/crud.py:65 | `offset(skip).limit(n)`: the rows from position skip on, at most n of them |
| Crud.PageJoin | backend/app/crud.py:65 | two consecutive pages of size n join into the page of size 2n |
| Crud.GetViewingRequests | backend/app/crud.py:52-67 | total is the filtered count; the page is the newest-first offset/limit slice, capped at 100, of filtered rows |
| Crud.PagesJoin | backend/app/crud.py:65 | two consecutive listings of size n join into the listing of size 2n (when 2n ≤ 100) |
| Crud.RoomsOf | backend/app/crud.py:24 | exactly the rooms of that property |
| Crud.RoomsOfCounts | backend/app/crud.py:24 | each of the property's rooms is kept as often as the table holds it, and no other room |
| Crud.GetRoomsByProperty | backend/app/crud.py:20-27 | exactly that property's rooms, ordered by display order |
| Crud.WithStatus | backend/app/crud.py:86 | the row with the new status and every other column as it was |
| Crud.MaxId | backend/app/crud.py:47-49 | an upper bound on every id in the table, so one more is a fresh id |
| Crud.FilterCountByProperty | backend/app/crud.py:61-64 | tables that agree on the property column have the same filtered count |
| Crud.StatusChangeKeepsTotals | backend/app/crud.py:64-86 | a status change leaves every listing total as it was |
| Crud.Database.constructor | backend/app/crud.py:30 | a store whose rows have unique ids and statuses from the whitelist "pending", "approved", "rejected" |
| Crud.Database.UpdateViewingRequestStatus | backend/app/crud.py:73-89 | a status outside the whitelist fails before lookup; an unknown id gives none and no change; otherwise only that row's status changes and it is returned |
| Crud.Database.CreateViewingRequest | backend/app/crud.py:33-50 | appends a row copied from the body with a fresh id, the creation time and status "pending" |
| Throttle.Accepted | frontend/src/hooks/useDebounce.js:6-16 | the accepted call times are some of the call times, no more of them than calls |
| Throttle.AcceptedSpaced | frontend/src/hooks/useDebounce.js:10-14 | each accepted call is at least `delay` after the previous one, the first at least `delay` after 0 |
| Throttle.SpacedPairwise | frontend/src/hooks/useDebounce.js:10-14 | with a non-negative delay neighbour spacing spaces every pair |
| Throttle.AcceptedApart | frontend/src/hooks/useDebounce.js:6-16 | any two accepted calls are at least `delay` apart |
| Throttle.Debounced.constructor | frontend/src/hooks/useDebounce.js:3-4 | `delay` defaults to 1000 and `lastCall` starts at 0 |
| Throttle.Debounced.Call | frontend/src/hooks/useDebounce.js:6-16 | a call is dropped iff now − lastCall < delay; an accepted one sets lastCall to now and passes its arguments on |
| Throttle.RepeatedSubmits | frontend/src/hooks/useDebounce.js:10-15 | with the default delay a call 500 ms after an accepted one is dropped, one 1000 ms after goes through |

## Left out

- DOM side effects are not modelled: body scroll locking, adding and removing the `keydown` listeners, and `window.location.reload()`. Key handling is modelled by the events the listeners react to.
- Listing.FlatImages: a room without an `images` field contributes nothing. JavaScript's `flatMap` would insert one `undefined` entry there, which `getImageUrl` would then throw on.
- RoomViewer.RoomModal.RunEffects compares rooms by value. React compares object identity, so a new object with equal contents would also reset the index.
- Card.IconFor: only the seven listed keys are modelled. Object prototype keys such as "constructor" would hit the table in JavaScript.
- Form.DateError: whether `new Date(preferred_date)` is before local midnight today depends on the clock, the time zone and date parsing. It is the input `beforeToday`.
- Regex classes are ASCII only:
  - `\s` is space, \t, \n, \r, \f and \v; Python's `\s` also matches the ASCII separators \x1c–\x1f, which `Schemas.Clean` therefore keeps;
  - `\d` is '0'–'9';
  - JavaScript's and Python's wider Unicode whitespace and digit classes are not modelled.
- String lengths count Unicode scalar values. JavaScript's `.length` counts UTF-16 code units, which differ for characters outside the Basic Multilingual Plane.
- Gallery.PhotoGallery.GoNext and Gallery.PhotoGallery.GoPrev require a non-empty image list. With none, JavaScript computes NaN. The host never mounts the gallery over fewer than six images.
- Gallery.PhotoGallery.constructor: an `initialIndex` outside the list is allowed but gives an invalid state. The host never passes one.
- Crud.OrderedRequests: rows with equal `created_at` keep store order. SQL leaves their order unspecified.
- Crud.GetRoomsByProperty: rows with equal `display_order` keep store order, for the same reason.
- Crud.GetViewingRequests takes `skip` and `limit` as natural numbers. The API layer (`main.py`) enforces `skip >= 0` and `1 <= limit <= 100`. Negative values are not modelled.
- Crud.Database.CreateViewingRequest picks the id max + 1: the model only needs an id no row has, and this choice gives one. Commit and refresh are not modelled.
- `get_property`, `get_default_property` and `get_room` are single-row lookups outside this model. `get_viewing_request` is modelled as `Crud.FindRequest`.
- Schemas: `EmailStr` validation and the parsing of `preferred_date` and `preferred_time` are library validators. Those fields are carried as text.
- Schemas.ValidateCreate reports only the length and phone issues. Missing or mistyped fields are rejected by the library before this point and are not modelled.
- Throttle.Debounced: `delay` is fixed when the hook state is created. The hook takes `delay` on every render and keeps `lastCallRef` across a change of it; a changed delay is not modelled.
- Throttle.Debounced.Call returns the arguments it would pass to the callback. Running the callback, its effects and `useCallback` memoisation are not modelled.
- The fetching hooks in `useApi.js`, the API routes in `main.py`, the ORM models, the seed data and `PropertyDescription` are not part of this model.
- Price formatting in the hero is not modelled.
- The room overlay's name, dimensions, description and feature list are shown text and are not modelled.

## Findings

| source | as written | input that shows it | evidently intended | confidence | as-written member | corrected member |
|---|---|---|---|---|---|---|
| frontend/src/components/RoomCard.jsx:97 | the feature preview joins with " Â· " (bytes C3 82 C2 B7): a UTF-8 middle dot decoded as Latin-1 and encoded again | a room with features ["Oak floor", "Fireplace"] shows "Oak floor Â· Fireplace" | " · ", the middle dot the hero's facts line uses (frontend/src/components/PropertyHero.jsx:35) | high, not executed | Card.GarbledSeparatorShows | Card.FeaturePreviewSeparator |
