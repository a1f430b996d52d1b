# SpotifyPirata in Dafny

SpotifyPirata is an Ionic/Angular music client. It searches and plays track previews, keeps a list of favourite
tracks on the device, shows a four-slide onboarding, cycles through six colour themes, manages a login session
and computes a "pirate" profile from the number of favourites. This project models the parts of the client that
are sequential logic, and proves what they promise:

- the key-value store every service persists through (`Storage`);
- the favourites store, with its "one entry per id" discipline and its mirror in storage (`Favorites`);
- the global player service and its media events (`Player`), the mini player that mirrors it (`FloatingPlayer`)
  and the per-page play/pause machines of the music, library and songs-modal pages (`PagePlayback`, `Music`,
  `Library`, `SongsModal`);
- the onboarding slide navigator, its swipe thresholds and its "intro seen" key (`Intro`);
- the theme cycler (`Theme`) and the side menu (`Menu`);
- the auth session, its error-message classifier and the three route guards (`Auth`, `Guards`);
- the pure classifiers, formatters and mappers: password strength (`Register`), profile statistics (`Profile`),
  `m:ss` formatting (`Format`), the artist search (`Artists`) and the Jamendo record mapping (`Jamendo`).

Shared pieces live in `Common` (Option/Result, decimal text, substring search, lower-casing, UTF-16 length, subsequences)
and `Entities` (ids, tracks, users). Objects whose fields the client updates in place are classes with `modifies`
clauses. Their methods are proved against specification functions, and those functions carry the lemmas.

Modelling conventions:

- A JavaScript `any` value that reaches storage is a `Storage.Value`, and `Storage.Truthy` is JavaScript
  truthiness on it.
- Ids are `Num(n)` or `Text(s)`. `Entities.IdKey` is `String(id)`, which the favourites store compares. The pages
  compare ids with `===`, which is equality of `Id`.
- A text field that may be missing is `""` when missing, since every `a || b` in the client treats the two alike.
- Each awaited step is one atomic transition. An HTTP response, a media-element event or a route URL is a
  parameter of the method that receives it.

## Model

| member | source | states |
|---|---|---|
| Storage.Find | src/app/services/storage.service.ts:24-28 | a read gives the stored value when the key is present and null (`None`) otherwise |
| Storage.Store.Lookup | src/app/services/storage.service.ts:24-28 | the store's read is `Find` on its current map: present exactly when the key is |
| Storage.Store.constructor | src/app/services/storage.service.ts:8 | a fresh service is not yet initialised and sees the persisted map |
| Storage.Store.Init | src/app/services/storage.service.ts:11-15 | afterwards the store is initialised; the backing store is created only on the first call |
| Storage.Store.Set | src/app/services/storage.service.ts:18-21 | the map gains or overwrites exactly that key |
| Storage.Store.Get | src/app/services/storage.service.ts:24-28 | returns the value under the key, or null, and leaves the map unchanged |
| Storage.Store.Remove | src/app/services/storage.service.ts:31-34 | the map loses exactly that key |
| Storage.Store.Clear | src/app/services/storage.service.ts:37-40 | the map becomes empty |
| Storage.Store.Keys | src/app/services/storage.service.ts:43-46 | lists every stored key once and no other |
| Storage.Store.Length | src/app/services/storage.service.ts:49-52 | the number of stored keys |
| Storage.SetThenGet | src/app/services/storage.service.ts:18-28 | `get` after `set(k, v)` returns `v` |
| Storage.RemoveThenGet | src/app/services/storage.service.ts:24-34 | `get` after `remove(k)` returns null |
| Storage.ClearThenCount | src/app/services/storage.service.ts:37-52 | after `clear`, `keys` is empty and `length` is 0; the backing store was created at most once |
| Entities.NumericIdMatchesText | src/app/services/favorites.service.ts:41-42 | `String(5)` and `String("5")` are the same key |
| Entities.NumericIdKeysDistinct | src/app/services/favorites.service.ts:41-42 | different numeric ids give different keys |
| Favorites.HasKey | src/app/services/favorites.service.ts:40-43 | true exactly when some entry's `String(id)` equals the key |
| Favorites.Without | src/app/services/favorites.service.ts:63-65 | keeps exactly the entries whose `String(id)` differs from the key, in their original order, each as many times as it occurs in the input |
| Favorites.Add | src/app/services/favorites.service.ts:53-57 | a present id leaves the list unchanged; a new one is appended at the end; either way the id is then present |
| Favorites.Loaded | src/app/services/favorites.service.ts:27-29 | an absent key loads the empty list; a stored list loads as is |
| Favorites.RemoveDropsOnlyThatId | src/app/services/favorites.service.ts:63-65 | after removal the id is absent and every entry with another id remains |
| Favorites.RemoveAbsentIsIdentity | src/app/services/favorites.service.ts:63-65 | removing an id that is not there changes nothing |
| Favorites.RemoveUndoesAppend | src/app/services/favorites.service.ts:53-65 | removing a just-added new track restores the list |
| Favorites.ToggleFlips | src/app/services/favorites.service.ts:45-51 | toggling flips whether the track's id is a favourite |
| Favorites.ToggleTwiceFromAbsent | src/app/services/favorites.service.ts:45-51 | two toggles starting from absent restore the list |
| Favorites.ToggleTwiceFromPresent | src/app/services/favorites.service.ts:45-51 | two toggles starting from present move the track to the end |
| Favorites.OperationsKeepDistinct | src/app/services/favorites.service.ts:53-65 | add, remove and toggle keep at most one entry per id |
| Favorites.WithoutKeepsDistinct | src/app/services/favorites.service.ts:63-65 | filtering keeps at most one entry per id |
| Favorites.NumericAndTextIdsAgree | src/app/services/favorites.service.ts:40-43 | a numeric id and its decimal text find and remove the same favourites |
| Favorites.FavoritesService.constructor | src/app/services/favorites.service.ts:17-31 | loads the stored list (or []) and publishes it; storage is unchanged |
| Favorites.FavoritesService.Load | src/app/services/favorites.service.ts:27-31 | the cache and the stream take the stored list, or [] when absent |
| Favorites.FavoritesService.IsFavorite | src/app/services/favorites.service.ts:40-43 | true exactly when some cached entry has the same `String(id)` |
| Favorites.FavoritesService.AddFavorite | src/app/services/favorites.service.ts:53-61 | the cache becomes `Add(old, t)`; a present id writes and publishes nothing; a new one is written under 'jamendo_favorites' and published |
| Favorites.FavoritesService.RemoveFavorite | src/app/services/favorites.service.ts:63-69 | the cache becomes `Without(old, id)`, the id is no longer a favourite, and storage and stream hold the new list |
| Favorites.FavoritesService.ToggleFavorite | src/app/services/favorites.service.ts:45-51 | the cache is toggled, membership flips, and storage and stream hold the new list |
| Favorites.FavoritesService.ClearAllFavorites | src/app/services/favorites.service.ts:71-75 | cache, storage and stream all become [] |
| Favorites.ToggleTwiceRestores | src/app/services/favorites.service.ts:45-69 | two `toggleFavorite` calls on a non-favourite restore the cache, in sync with storage |
| Player.PreviewOf | src/app/services/player.service.ts:41-46 | a preview exists exactly when `preview_url` or `preview` is set, and `preview_url` wins |
| Player.PlayerService.constructor | src/app/services/player.service.ts:8-16 | no track, paused, zero progress and duration, empty source |
| Player.PlayerService.PlayTrack | src/app/services/player.service.ts:40-53 | without a preview returns false and changes nothing; otherwise returns true, sets the track, the source and the playing flag |
| Player.PlayerService.TogglePlay | src/app/services/player.service.ts:55-63 | negates the playing flag and keeps the track and the source |
| Player.PlayerService.Pause | src/app/services/player.service.ts:65-68 | the flag is false and the element is paused; nothing else changes |
| Player.PlayerService.Stop | src/app/services/player.service.ts:70-77 | no track, paused, progress and duration 0, empty source |
| Player.PlayerService.Seek | src/app/services/player.service.ts:79-81 | only the element's position changes |
| Player.PlayerService.OnTimeUpdate | src/app/services/player.service.ts:19-21 | the progress takes the element's current time |
| Player.PlayerService.OnLoadedMetadata | src/app/services/player.service.ts:23-25 | the duration takes the element's duration |
| Player.PlayerService.OnEnded | src/app/services/player.service.ts:27-29 | the playing flag becomes false |
| Player.PlayerService.OnPlay | src/app/services/player.service.ts:31-33 | the playing flag becomes true |
| Player.PlayerService.OnPause | src/app/services/player.service.ts:35-37 | the playing flag becomes false |
| Player.ToggleTwice | src/app/services/player.service.ts:55-63 | two toggles restore the flag and keep the track |
| Player.PauseTwice | src/app/services/player.service.ts:65-68 | `pause` is idempotent: the whole state after a second call equals the state after the first, which is the old state with both playing flags down |
| Player.StopTwice | src/app/services/player.service.ts:70-77 | `stop` is idempotent: the whole state after a second call equals the state after the first |
| Player.ToggleAfterStop | src/app/services/player.service.ts:55-77 | `togglePlay` after `stop` reports playing while there is no track and nothing plays |
| FloatingPlayer.FloatingPlayerComponent.constructor | src/app/components/floating-player/floating-player.component.ts:27-30 | starts with no track, paused, zero progress and duration |
| FloatingPlayer.FloatingPlayerComponent.OnInit | src/app/components/floating-player/floating-player.component.ts:37-52 | the four fields mirror the service's subjects |
| FloatingPlayer.FloatingPlayerComponent.Sync | src/app/components/floating-player/floating-player.component.ts:37-52 | the fields take the service's current values |
| FloatingPlayer.FloatingPlayerComponent.TogglePlay | src/app/components/floating-player/floating-player.component.ts:58-60 | the service's toggle: the flag flips, the track stays, and the view still mirrors the service |
| FloatingPlayer.FloatingPlayerComponent.Close | src/app/components/floating-player/floating-player.component.ts:62-64 | the service's stop: track, flag, progress and duration are cleared in the service and the view |
| FloatingPlayer.CloseThenPlay | src/app/components/floating-player/floating-player.component.ts:58-64 | closing and then pressing play shows "playing" with no track |
| Format.PadStart2 | src/app/music/music.page.ts:145 | `padStart(2, '0')`: a short text becomes two characters ending in it; a longer one is kept |
| Format.FormatDuration | src/app/music/music.page.ts:142-146 | the minutes in decimal, a colon, and exactly two digits |
| Format.SecondsFieldDigits | src/app/music/music.page.ts:144-145 | the padded seconds field is two digits that read back as `s mod 60` |
| Format.ParseJoined | src/app/music/music.page.ts:145 | reading a `m:ss` text splits at the colon into its two fields |
| Format.FormatDurationRoundTrip | src/app/music/music.page.ts:142-146 | reading the formatted text gives back the number of seconds |
| Format.FormatDurationInjective | src/app/library/library.page.ts:124-128 | different durations never print alike |
| Format.FormatTimeAgreesWithDuration | src/app/components/floating-player/floating-player.component.ts:72-77 | `formatTime` equals `formatDuration` on whole seconds and gives '0:00' for 0 and non-finite input |
| PagePlayback.TransitionsKeepCoherent | src/app/music/music.page.ts:112-140 | every page transition keeps "the element plays only while the flag says playing" and "the ended handler exists once a track was chosen" |
| PagePlayback.ToggleSameTrack | src/app/music/music.page.ts:114-122 | the current track flips the flag and keeps track and source |
| PagePlayback.ToggleNewTrack | src/app/music/music.page.ts:126-134 | another track becomes current, its preview is the source, and it plays |
| PagePlayback.ToggledTrackIsCurrent | src/app/music/music.page.ts:112-134 | after `togglePlay(t)`, `t` is the current track |
| PagePlayback.ToggleTwiceRestores | src/app/music/music.page.ts:114-122 | two toggles of the current track restore the page |
| PagePlayback.EndedStops | src/app/music/music.page.ts:137-139 | the end of playback clears the flag and keeps the track |
| PagePlayback.StrictIdComparison | src/app/music/music.page.ts:114 | the pages compare ids with `===`, so 5 and "5" count as different tracks |
| Music.MusicPage.constructor | src/app/music/music.page.ts:48-64 | no tracks, empty search, not loading, nothing playing |
| Music.MusicPage.Search | src/app/music/music.page.ts:94-98 | a query whose JavaScript length (UTF-16 code units) is below two changes nothing; otherwise the term is stored and loading starts |
| Common.Utf16Length | src/app/music/music.page.ts:95 | JavaScript's `length`: at least the number of characters and at most twice it, and equal to it when no character is beyond U+FFFF |
| Music.SearchAcceptedByLength | src/app/music/music.page.ts:95 | one character below U+10000 is refused, one beyond U+FFFF is searched, two or more characters always are |
| Music.MusicPage.OnSearchResult | src/app/music/music.page.ts:100-109 | success replaces the tracks, an error keeps them; loading ends either way |
| Music.MusicPage.OnInit | src/app/music/music.page.ts:75-87 | with `q` the term is `q` and a search runs when it is long enough; without it 'Top Hits' is searched |
| Music.MusicPage.TogglePlay | src/app/music/music.page.ts:112-140 | the page's playback follows `PagePlayback.TogglePlay` and nothing else changes |
| Music.MusicPage.OnEnded | src/app/music/music.page.ts:137-139 | the page's playback follows `PagePlayback.Ended` |
| Music.MusicPage.IsFavorite | src/app/music/music.page.ts:66-68 | the favourites store's answer for the track's id |
| Music.MusicPage.ToggleFavorite | src/app/music/music.page.ts:70-73 | the favourites store's toggle |
| Music.ShortQueryShownNotSearched | src/app/music/music.page.ts:78-95 | `?q=a` shows 'a' in the bar but sends no search |
| Library.GetAlbumCover | src/app/library/library.page.ts:95-114 | never the empty text |
| Library.FirstNonEmpty | src/app/library/library.page.ts:104-113 | the first non-empty candidate, or the default when all are empty |
| Library.AlbumCoverIsFirstSource | src/app/library/library.page.ts:95-114 | the cover is the first set one of the album's size field, its `cover_medium`, its `cover`, the track's `image`, its `cover_medium`, else the default picture |
| Library.NamelessArtistObjectLeaks | src/app/library/library.page.ts:117-121 | as written, an artist object without a name is returned itself instead of a name |
| Library.GetArtistName | src/app/library/library.page.ts:117-121 | `artist.name`, else the artist text, else 'Artista desconocido'; never empty |
| Library.LibraryPage.constructor | src/app/library/library.page.ts:45-54 | no favourites, nothing playing |
| Library.LibraryPage.OnFavorites | src/app/library/library.page.ts:56-60 | the page shows the published list |
| Library.LibraryPage.TogglePlay | src/app/library/library.page.ts:62-87 | the page's playback follows `PagePlayback.TogglePlay` |
| Library.LibraryPage.OnEnded | src/app/library/library.page.ts:84-86 | the page's playback follows `PagePlayback.Ended` |
| Library.LibraryPage.RemoveFavorite | src/app/library/library.page.ts:89-92 | the store drops the track's id, and the page shows the published list |
| SongsModal.SongsModalPage.constructor | src/app/songs-modal/songs-modal.page.ts:40-56 | the artist and songs passed in, nothing playing, not dismissed |
| SongsModal.SongsModalPage.Dismiss | src/app/songs-modal/songs-modal.page.ts:60-63 | pauses the element and dismisses without data |
| SongsModal.SongsModalPage.GoToMusicPage | src/app/songs-modal/songs-modal.page.ts:65-70 | pauses the element and dismisses with `{goToMusic: true}` |
| SongsModal.SongsModalPage.TogglePlay | src/app/songs-modal/songs-modal.page.ts:72-94 | the modal's playback follows `PagePlayback.TogglePlay` |
| SongsModal.SongsModalPage.OnEnded | src/app/songs-modal/songs-modal.page.ts:91-93 | the modal's playback follows `PagePlayback.Ended` |
| SongsModal.SongsModalPage.IsFavorite | src/app/songs-modal/songs-modal.page.ts:96-98 | the favourites store's answer for the track's id |
| SongsModal.SongsModalPage.ToggleFavorite | src/app/songs-modal/songs-modal.page.ts:100-103 | the favourites store's toggle |
| SongsModal.DismissWhilePlaying | src/app/songs-modal/songs-modal.page.ts:60-63 | dismissing pauses the element but leaves the playing flag set |
| Intro.GetSafeSlide | src/app/intro/intro.page.ts:136-138 | the slide at an index in range, else the first slide |
| Intro.ProgressValueSteps | src/app/intro/intro.page.ts:446-448 | the progress is 1/4 on the first slide, grows by 1/4 per slide, and is 1 exactly on the last |
| Intro.AnnouncementsDistinct | src/app/intro/intro.page.ts:407-410 | the four slides are announced differently |
| Intro.IntroSeenKeyChoice | src/app/intro/intro.page.ts:339-346 | the global key is used exactly when no one is logged in; different users get different keys |
| Intro.TouchSwipe | src/app/intro/intro.page.ts:172-187 | acts exactly on a mostly horizontal move of more than 50 pixels from a non-zero start; left goes next, right goes back |
| Intro.GestureSwipe | src/app/intro/intro.page.ts:214-220 | acts exactly beyond 80 pixels; to the right goes back |
| Intro.SwipesAgree | src/app/intro/intro.page.ts:181-219 | when both detectors act on the same move they choose the same direction |
| Intro.TouchSwipeMirror | src/app/intro/intro.page.ts:181-186 | mirroring a touch swipe swaps next and back |
| Intro.IntroPage.constructor | src/app/intro/intro.page.ts:72 | starts on the first slide |
| Intro.IntroPage.AnnounceSlide | src/app/intro/intro.page.ts:407-410 | the message is the current slide's title and subtitle |
| Intro.IntroPage.NextWithAnimation | src/app/intro/intro.page.ts:239-257 | below the last slide the index grows by one; at the last nothing changes |
| Intro.IntroPage.PrevWithAnimation | src/app/intro/intro.page.ts:259-277 | above the first slide the index drops by one; at the first nothing changes |
| Intro.IntroPage.Next | src/app/intro/intro.page.ts:227-231 | one slide forward, or nothing at the last; the index stays in range |
| Intro.IntroPage.Prev | src/app/intro/intro.page.ts:233-237 | one slide back, or nothing at the first; the index stays in range |
| Intro.IntroPage.GoToSlide | src/app/intro/intro.page.ts:396-405 | moves and announces only for an in-range index different from the current one |
| Intro.IntroPage.GoHome | src/app/intro/intro.page.ts:320-352 | writes true under the user's key (or the global key) and goes to '/menu/home' |
| Intro.IntroPage.SkipToEnd | src/app/intro/intro.page.ts:381-395 | from the last slide goes home; otherwise jumps to the last slide and announces it |
| Intro.IntroPage.OnTouchEnd | src/app/intro/intro.page.ts:172-188 | a touch swipe moves as `next`/`prev` do, or not at all; a move announces the new slide, no move keeps the announcement, and loading and navigation are untouched |
| Intro.IntroPage.OnGestureEnd | src/app/intro/intro.page.ts:207-221 | a gesture swipe moves one slide as the animated steps do, or not at all; a move announces the new slide, no move keeps the announcement, and loading and navigation are untouched |
| Intro.NextThenPrev | src/app/intro/intro.page.ts:227-237 | `next` then `prev` below the last slide returns to the same slide |
| Intro.ManyNexts | src/app/intro/intro.page.ts:227-231 | n calls of `next` advance n slides and stop at the last |
| Theme.IndexOf | src/app/services/theme.service.ts:46 | `indexOf`: the first position holding the theme, or -1 exactly when it is absent |
| Theme.IndexOfDistinct | src/app/services/theme.service.ts:46 | in a list without repeats each entry is found at its own position |
| Theme.ToggledInAt | src/app/services/theme.service.ts:46-48 | n toggles from position i land on the entry n steps ahead, cyclically |
| Theme.NextTheme | src/app/services/theme.service.ts:45-48 | the successor is always one of the six; an unknown theme goes to 'light' |
| Theme.NextThemeAt | src/app/services/theme.service.ts:46-48 | the successor of `themes[i]` is `themes[(i + 1) mod 6]`, so 'pirate' wraps to 'light' |
| Theme.ToggledAt | src/app/services/theme.service.ts:46-48 | n toggles from `themes[i]` give `themes[(i + n) mod 6]` |
| Theme.TogglesReturnIff | src/app/services/theme.service.ts:46-48 | toggling returns to the starting theme exactly after a multiple of six toggles |
| Theme.InitialTheme | src/app/services/theme.service.ts:31-32 | a saved theme is used only when it is one of the six, else 'dark' |
| Theme.GetThemeLabel | src/app/services/theme.service.ts:55-57 | the mapped label, or the name itself when unmapped |
| Theme.LabelsCoverThemes | src/app/services/theme.service.ts:10-18 | every theme has a label and no two themes share one |
| Theme.ThemeService.constructor | src/app/services/theme.service.ts:23-34 | runs `initTheme`: the current theme comes from storage, and its class is the only theme class on the body |
| Theme.ThemeService.InitTheme | src/app/services/theme.service.ts:30-34 | applies the saved theme when valid, else 'dark' |
| Theme.ThemeService.ApplyTheme | src/app/services/theme.service.ts:36-42 | removes all six theme classes, adds the chosen one and makes it current |
| Theme.ThemeService.ToggleTheme | src/app/services/theme.service.ts:44-53 | applies the successor, stores it under 'theme' and toasts its label |
| Theme.OnlyOneThemeClass | src/app/services/theme.service.ts:38-40 | after applying, the chosen class is the only theme class on the body |
| Theme.ToggleThenRestart | src/app/services/theme.service.ts:30-53 | a restart after a toggle restores the toggled theme |
| Menu.PageFor | src/app/menu/menu.page.ts:95-103 | '/menu/home' gives home, else '/intro' gives intro, else the page stays |
| Menu.TitleDeterminesPage | src/app/menu/menu.page.ts:96-102 | different pages have different titles |
| Menu.RoutesRecognised | src/app/menu/menu.page.ts:96-101 | the two routes themselves are recognised |
| Menu.MenuPage.constructor | src/app/menu/menu.page.ts:62-63 | starts on home with the title 'Inicio' |
| Menu.MenuPage.UpdateCurrentPage | src/app/menu/menu.page.ts:80-103 | the page becomes `PageFor(url, old page)` and the title always matches the page |
| Menu.MenuPage.ChangeTheme | src/app/menu/menu.page.ts:122-124 | the theme service's toggle |
| Menu.HomeTakesPrecedence | src/app/menu/menu.page.ts:96-99 | a URL holding both routes shows home |
| Auth.LoginPayload | src/app/services/auth.service.ts:104-109 | the body is `{user: {email, password}}` from the credentials |
| Auth.HandleError | src/app/services/auth.service.ts:175-201 | client errors give 'Error: message'; 401, 422 and 500 give their messages, 422 preferring the server's `msg`; other statuses give 'Error status: …' |
| Auth.DefaultMessageNamesStatus | src/app/services/auth.service.ts:194-195 | two other statuses never give the same message |
| Auth.ClientAndServerMessagesDiffer | src/app/services/auth.service.ts:178-195 | a client error and an other-status error never give the same message |
| Auth.AuthService.StoredSession | src/app/services/auth.service.ts:84-87 | a session is stored when both keys are truthy and the user key holds a user |
| Auth.AuthService.constructor | src/app/services/auth.service.ts:71-77 | runs `loadStoredAuth`: a stored session is restored, otherwise no one is logged in; ready either way |
| Auth.AuthService.LoadStoredAuth | src/app/services/auth.service.ts:82-97 | restores a stored session, else keeps the state; ready in every case; "authenticated ⇔ user present" holds |
| Auth.AuthService.Login | src/app/services/auth.service.ts:103-119 | the session changes only on status 'OK' with a user; errors become `handleError`'s message |
| Auth.AuthService.Signup | src/app/services/auth.service.ts:125-133 | passes the answer through, errors through `handleError`; the session is untouched |
| Auth.AuthService.HandleAuthSuccess | src/app/services/auth.service.ts:138-148 | stores the user and true, then logs the user in |
| Auth.AuthService.Logout | src/app/services/auth.service.ts:153-170 | removes the three keys, logs out, and navigates to '/login' only when asked |
| Auth.SessionSurvivesRestart | src/app/services/auth.service.ts:138-148 | after a successful login a new service restores the same user |
| Auth.LogoutEndsSession | src/app/services/auth.service.ts:153-170 | after logout a new service restores no session |
| Guards.FirstReady | src/app/guards/auth.guard.ts:22-25 | the authentication flag at the first ready snapshot, or none while not ready |
| Guards.AuthGuardDecides | src/app/guards/auth.guard.ts:22-40 | allows exactly when authenticated at readiness, else goes to '/login' with the URL; pending before readiness |
| Guards.PublicGuardDecides | src/app/guards/auth.guard.ts:61-73 | allows exactly when not authenticated, else goes to '/menu/home' |
| Guards.ExactlyOneGuardAllows | src/app/guards/auth.guard.ts:27-66 | once ready, exactly one of the two guards allows |
| Guards.NotReadyPrefixIgnored | src/app/guards/auth.guard.ts:23 | snapshots before readiness do not matter |
| Guards.LaterSnapshotsIgnored | src/app/guards/auth.guard.ts:25 | snapshots after the first ready one do not matter |
| Guards.IntroDecision | src/app/guards/intro.guard.ts:9-13 | allows exactly when 'introSeen' is truthy, else the '/intro' tree |
| Guards.CanActivate | src/app/guards/intro.guard.ts:9-13 | reads only the global key and leaves storage unchanged |
| Guards.IntroGuardIgnoresUserKey | src/app/guards/intro.guard.ts:10-12 | writing the user's key does not satisfy the guard |
| Guards.FinishIntroThenGuard | src/app/intro/intro.page.ts:339-342 | a logged-in user who finishes the intro is still sent back to it |
| Guards.IntroDecisionFor | src/app/guards/intro.guard.ts:9-13 | corrected guard: reads the key `goHome` writes; without a user it is the guard as written |
| Guards.CorrectedGuardAdmitsAfterIntro | src/app/intro/intro.page.ts:339-346 | corrected guard: finishing the intro admits that user and no other |
| Guards.CanActivateCorrected | src/app/guards/intro.guard.ts:9-13 | corrected guard over the store, leaving it unchanged |
| Guards.FinishIntroThenCorrectedGuard | src/app/intro/intro.page.ts:320-352 | corrected guard: finishing the intro lets the user in |
| Register.Has | src/app/register/register.page.ts:165-168 | a class test holds exactly when some character is in the class |
| Register.ClassCount | src/app/register/register.page.ts:165-169 | the number of classes present, at most four |
| Register.PasswordStrength | src/app/register/register.page.ts:158-173 | none ⇔ empty; weak ⇔ shorter than 8; strong ⇔ at least 10 with 3 classes; good ⇔ at least 8 with 2 classes and not strong; medium otherwise |
| Register.SingleClassIsMedium | src/app/register/register.page.ts:163-172 | eight or more characters of a single class are medium |
| Register.StrengthMonotone | src/app/register/register.page.ts:158-173 | typing one more character never lowers the meter |
| Register.StrengthText | src/app/register/register.page.ts:175-185 | the text is empty exactly for no strength |
| Register.StrengthTextInjective | src/app/register/register.page.ts:175-185 | each strength has its own text |
| Register.PasswordMatch | src/app/register/register.page.ts:98-102 | no error exactly when password and confirmation are equal, else `mismatch` |
| Register.Register | src/app/register/register.page.ts:107-112 | the signup request is sent exactly when the form is valid |
| Register.AcceptedPasswordAtLeastMedium | src/app/register/register.page.ts:158-173 | a password the form accepts shows at least "Media" |
| Profile.StatsFor | src/app/profile/profile.page.ts:132-138 | 12n songs; hours and artists are n div 2; playlists n div 5 |
| Profile.CeilThird | src/app/profile/profile.page.ts:140 | the ceiling of n / 3 |
| Profile.TopGenresFor | src/app/profile/profile.page.ts:140 | a prefix of ['Rock', 'Pop', 'Hip Hop'] of length min(3, ceil(n / 3)); all three exactly above six |
| Profile.PirateLevel | src/app/profile/profile.page.ts:143-148 | the level indexed by how many of the thresholds 5, 10, 20 are strictly below n |
| Profile.LevelMonotone | src/app/profile/profile.page.ts:143-148 | more favourites never give a lower level |
| Profile.CountAtMostPrefix | src/app/profile/profile.page.ts:153-190 | on ascending thresholds the reached ones form a prefix |
| Profile.AchievementsShape | src/app/profile/profile.page.ts:150-203 | unlocked entries come first, one per threshold reached, in order; "Maestro del Mar" is listed locked exactly below 50 |
| Profile.RecentActivityFor | src/app/profile/profile.page.ts:205-212 | the first min(3, n) of the fixed three activities |
| Profile.RecentActivityGrows | src/app/profile/profile.page.ts:205-212 | fewer favourites show a prefix of what more show |
| Profile.AvatarSeed | src/app/profile/profile.page.ts:119-120 | the name, else the e-mail, else 'Captain' |
| Profile.AvatarUrlSeed | src/app/profile/profile.page.ts:120 | the avatar URL is the DiceBear base followed by the seed |
| Profile.ProfilePage.constructor | src/app/profile/profile.page.ts:73-93 | the initial fields: no user, no favourites, level 'Grumete', zero stats |
| Profile.ProfilePage.OnInit | src/app/profile/profile.page.ts:117-121 | takes the current user and builds the avatar URL from its seed |
| Profile.ProfilePage.OnFavorites | src/app/profile/profile.page.ts:122-129 | the count becomes the list's length and every derived field is recomputed from it |
| Profile.ProfilePage.CalculateStats | src/app/profile/profile.page.ts:132-141 | stats and top genres become `StatsFor(n)` and `TopGenresFor(n)` |
| Profile.ProfilePage.CalculatePirateLevel | src/app/profile/profile.page.ts:143-148 | the level becomes `PirateLevel(n)` |
| Profile.ProfilePage.LoadAchievements | src/app/profile/profile.page.ts:150-203 | rebuilds the list from empty as `AchievementsFor(n)` |
| Profile.ProfilePage.LoadRecentActivity | src/app/profile/profile.page.ts:205-212 | the activity becomes `RecentActivityFor(n)` |
| Profile.ProfilePage.Logout | src/app/profile/profile.page.ts:224-226 | the auth service's logout with redirect |
| Profile.LoadAchievementsTwice | src/app/profile/profile.page.ts:151 | loading achievements twice gives the same list as once |
| Common.ToLower | src/app/artists/artists.page.ts:89 | same length, each capital A-Z or U+00C0..U+00DE (but U+00D7) replaced by its small letter, which is no capital, and every other character kept |
| Common.ToLowerIdempotent | src/app/artists/artists.page.ts:89 | lower-casing twice is lower-casing once; no capital is left |
| Common.AccentedCapitalFolds | src/app/artists/artists.page.ts:98 | the lower-cased "Édith Piaf" includes "édith" |
| Artists.AnyGenreIncludes | src/app/artists/artists.page.ts:97-99 | true exactly when some lower-cased genre includes the query |
| Artists.FilterArtists | src/app/artists/artists.page.ts:97-100 | an order-preserving subsequence holding every matching artist and only matching ones, each matching artist as many times as it occurs in the input |
| Artists.EmptyQueryKeepsAll | src/app/artists/artists.page.ts:92-95 | the empty query would keep every artist |
| Artists.ArtistsPage.constructor | src/app/artists/artists.page.ts:47-50 | empty lists, loading, empty search |
| Artists.ArtistsPage.LoadArtists | src/app/artists/artists.page.ts:70-83 | success sets both lists to the data; an error keeps them; loading ends either way |
| Artists.ArtistsPage.HandleSearch | src/app/artists/artists.page.ts:88-101 | stores the lower-cased query; the empty query shows every artist, others the filter |
| Jamendo.OrElse | src/app/services/jamendo.service.ts:242-249 | JavaScript's or-fallback on texts: the first text unless it is empty, then the second |
| Jamendo.MapTrack | src/app/services/jamendo.service.ts:235-250 | copies the fields; album image and image fall back on each other; missing fields default to '' and 0 |
| Jamendo.MapTracks | src/app/services/jamendo.service.ts:234-251 | one mapped record per raw one, same length and order |
| Jamendo.MapTracksAppend | src/app/services/jamendo.service.ts:234-251 | mapping distributes over concatenation |
| Jamendo.FirstOrNull | src/app/services/jamendo.service.ts:114-115 | the first element, or null exactly for an empty list |
| Jamendo.TrackList | src/app/services/jamendo.service.ts:58-79 | the track lists map the results, and an error or missing results give [] |
| Jamendo.GetTrack | src/app/services/jamendo.service.ts:103-119 | the first mapped track, null when there is none or the request failed |
| Jamendo.ListOrEmpty | src/app/services/jamendo.service.ts:124-136 | the artists or albums received, [] on error or missing results |
| Jamendo.GetArtist | src/app/services/jamendo.service.ts:141-155 | the first artist, null when there is none or the request failed |
| Jamendo.ConvertToAppFormat | src/app/services/jamendo.service.ts:256-272 | one artist entry, one cover, duration in milliseconds, the audio as preview, and the Jamendo track URL |
| Jamendo.ConvertedCover | src/app/services/jamendo.service.ts:242-265 | the converted cover is the album image, else the image |
| Jamendo.TrackUrlInjective | src/app/services/jamendo.service.ts:270 | different ids give different track URLs |
| Jamendo.GetTags | src/app/services/jamendo.service.ts:277-284 | the fixed fifteen tags, 'rock' and 'indie' among them |

## Left out

- HTTP: request building, query strings, the `http.get`/`post` calls and the Observable plumbing of the Jamendo,
  auth, music and Deezer services are not modelled. Responses are parameters, and `music.service.ts` and
  `deezer.service.ts` are not part of this model.
- The auth interceptor is not part of this model. It is retry plumbing that calls methods `AuthService` does not
  define.
- The media element: loading, real playback and the values of `currentTime`/`duration` are abstract. The source,
  the element's position and a "playing" bit stand for them.
- Floating point: `getProgress` on the player, music, library and floating-player pages and the floating player's
  `seek` ratio are not modelled. `Intro.ProgressValue` is the only fraction, kept as an exact `real`.
- Durations are whole seconds, so `Math.floor` is integer division.
- Animations, gesture set-up, focus handling, image preloading, parallax, window resizing and the `setTimeout` delays
  of the intro page are not modelled. Each delayed index update is one atomic step.
- `setDarkTheme` on the intro page is not modelled, because it only edits body classes in the DOM.
- Toasts and loading controllers are not modelled, except the theme toast's text.
- The login and register pages' async UI flows are not modelled, beyond `register()`'s early return.
- Angular's `Validators.email` is not modelled; its outcome is the `emailPatternOk` parameter.
- Register.RequiredMin: JavaScript string lengths count UTF-16 units, while the model counts characters.
- Register.PasswordStrength: as with `RequiredMin`, lengths count characters rather than UTF-16 units.
- Common.ToLower: folds only A-Z and the Latin-1 capitals U+00C0..U+00DE; JavaScript's `toLowerCase` also folds
  every other Unicode capital (Greek, Cyrillic, Latin Extended, ...) and turns some into several characters.
- Artists.AnyGenreIncludes: compares genres through `Common.ToLower`, so a genre written with a capital outside
  its range ("Ωmega") is not found by its small-letter spelling, which the application finds.
- Artists.FilterArtists: matches names and genres through `Common.ToLower`, with the same gap.
- Artists.ArtistsPage.HandleSearch: lower-cases the query and the artists through `Common.ToLower`, with the same gap.
- Intro.TouchSwipe: coordinates are whole pixels, while `clientX`/`clientY` may be fractional (a 50.5-pixel move
  acts in the application and has no counterpart here).
- Intro.GestureSwipe: `deltaX` is a whole number of pixels, while the gesture reports fractional values.
- Theme.GetThemeLabel: a theme name such as `constructor` that names an inherited property of a JavaScript object is not modelled.
- Auth.StoredUser: a stored `current_user` value that is truthy but not a user record is treated as no user.
- Navigation methods (`navigateToHome`, `navigateToIntro`, `verIntro`, the menu's `logout`, the profile's
  `navigateTo…` and the artists page's navigation to the music page) are not modelled, since they only call the router.
- `ngOnDestroy` unsubscription is not modelled.
- The getters `getFavorites`, `getCurrentTrack`, `getProgress` and `getCurrentTheme` are not modelled as methods;
  the fields they return are read directly.
- `Format.FormatDuration` models the identical `formatDuration` of both the music and library pages.
- Artist and album records from Jamendo pass through unchanged, so only their selection is modelled.
- An artist without `genres` is given the empty list, which the filter's fallback treats alike.
- Timing of BehaviorSubject emissions and interleaving of promises are not modelled.
- The application bootstrap, the route table and the home page are not part of this model.

## Findings

| source | as written | input that shows it | evidently intended | confidence | as-written member | corrected member |
|---|---|---|---|---|---|---|
| src/app/guards/intro.guard.ts:10-12 | `IntroGuard` reads only the global key 'introSeen', while the intro page writes 'introSeen_<id>' whenever a user is logged in (src/app/intro/intro.page.ts:339-342) | a logged-in user with id 7 and no 'introSeen' key finishes the intro; the guard finds 'introSeen' absent and redirects back to '/intro' | the guard reads the same key the intro page writes for the current user | not executed | Guards.IntroGuardIgnoresUserKey | Guards.CorrectedGuardAdmitsAfterIntro |
| src/app/library/library.page.ts:117-121 | when `artist` is an object whose `name` is empty, `getArtistName` returns the object itself instead of a string | a track with `artist: {name: ''}` | fall back to 'Artista desconocido' whenever no name text is available | not executed | Library.NamelessArtistObjectLeaks | Library.GetArtistName |
