# hatch-sync in Dafny

This project models the core of hatch-sync, a small service that:
- reads a baby's records (diapers, feedings, sleeps, weights) from the Hatch Grow API and copies them into a Google Calendar per baby as events;
- serves the same data, plus Hatch Rest device controls, over HTTP.

The model covers these parts of the service:
- **The sync** (`app/sync.py`): a state of already-synced record ids per `baby_{id}_{kind}` key, and the de-duplicating record loops of one pass.
- **Google Calendar** (`app/gcal_service.py`):
  - the converters from Hatch records to `(summary, description, start, end)`;
  - the Hatch timestamp parser;
  - find-or-create of the baby's calendar and its idempotent sharing.
- **The Redis cache** (`app/cache.py`): key naming, TTL choice, and the rules that turn a disabled cache, errors and bad JSON into misses and no-ops.
- **Payload extraction** (`app/hatch_grow_service.py`): how responses become record lists.
- **The seed generator** (`app/seed_data.py`).
- **The device helpers** (`app/hatch_service.py`).
- **The web layer's decisions** (`app/main.py`): CORS origins, the shape of the Grow responses, and which HTTP status each outcome becomes.

Everything outside the service is an input:
- **Hatch HTTP replies**: the decoded body, or an exception.
- **The Google API**: a request counter and an oracle saying which request fails.
- **The Redis server**: an expiring map, an enabled flag and a failure oracle.
- **The device library**: the device list it returns or the error it raises.
- **The clock**: "now".

Python exceptions that escape a function are `Err` or `Raised` results.

Where a comment and the code disagree, the model follows the code. The comment at `app/main.py:68` says `CORS_ORIGINS` adds origins to the defaults, but `app/main.py:74-75` uses a non-blank setting instead of the defaults. `Api.CorsOrigins` does the latter, and `Api.CorsRoundTrip` shows that a set value yields exactly its own origins, so a default is kept only when the setting lists it.

Modules, one per file:
- `Wrappers`: Option and Result.
- `Json`: Python/JSON values, truthiness, `dict.get`, `str()`, an abstract `json.dumps`/`loads`.
- `Decimal`: integer text.
- `Time`: a proleptic Gregorian calendar over seconds, plus `strftime`/`strptime`.
- `Strings`: `strip`, `split`, `join`, `replace`, `lower`.
- `Gcal`, `Cache`, `Grow`, `Sync`, `Seed`, `Devices`, `Api`.

## Model

| member | source | states |
|---|---|---|
| Sync.LoadState | app/sync.py:42-50 | A missing or unreadable state file is the empty state; a saved state is read back as it was. |
| Sync.StateKeyInjective | app/sync.py:59-60 | Equal keys mean the same kind and the same id text, hence the same id among integer ids. |
| Sync.SeenIds | app/sync.py:63-65 | The seen set of a (baby, kind) is the stored set, or empty when the key is absent. |
| Sync.SetSeenIds | app/sync.py:68-70 | After the write, the (baby, kind) reads back exactly the given ids; only that key is added; every other key keeps its value. |
| Sync.SetSeenIdsFrame | app/sync.py:68-70 | Writing the seen ids of one (integer baby, kind) leaves the seen ids of every other pair unchanged. |
| Sync.Step | app/sync.py:178-187 | One loop iteration raises exactly when the record is not a dict with a usable id; a record whose id is None or already seen changes nothing. |
| Sync.StepCases | app/sync.py:179-187 | An iteration either skips, or fails (one error for that id, seen set unchanged, at most one request), or succeeds (the id joins the seen set, one event is made, one request). |
| Sync.RunOkIff | app/sync.py:177-187 | A record loop completes exactly when every record is well formed. |
| Sync.RunSeen | app/sync.py:177-188 | After a loop the seen set is the old seen set plus exactly the ids of created events; every created id was unseen before; no id gets two events in one pass. |
| Sync.RunNothingNew | app/sync.py:178-180 | When every record's id is None or already seen, the loop calls nothing and changes nothing. |
| Sync.RunCovers | app/sync.py:177-187 | Every record with an id ends the loop either seen or among the failures: a failure does not stop the loop. |
| Sync.StepWithin | app/sync.py:180-187 | An iteration creates or fails only for its record's id, and only when that id is unseen. |
| Sync.RunWithin | app/sync.py:177-187 | A loop over records whose ids are unset, seen or allowed creates and fails only for allowed ids. |
| Sync.SecondPassRetriesOnlyFailures | app/sync.py:177-230 | A second pass on a state that includes the first pass's seen ids retries only ids that failed in the first pass. |
| Sync.RerunCreatesNothing | app/sync.py:177-230 | Idempotence: after a pass with no failures, a re-run on its state creates nothing and makes no request. |
| Sync.RunErrPersists | app/sync.py:177-188 | Once the loop has raised, its outcome is that exception whatever records follow. |
| Sync.SyncRecord | app/sync.py:179-187 | One iteration against the calendar service does what `Step` specifies, and appends exactly the created event to the calendar. |
| Sync.Insert | app/sync.py:183-187 | One `create_event`: on success the event is appended, the id is marked seen and the count grows; on failure one failure is recorded. |
| Sync.SyncKind | app/sync.py:177-188 | The loop over one kind's records is the specification `Run`; the calendar gains exactly the events it created, in order; the calendar list and ACLs are untouched. |
| Sync.KindKeepsConsistent | app/sync.py:177-188 | Processing a kind keeps the invariant that every synced event is recorded as seen under its key and no (key, id) has two events. |
| Sync.Messages | app/sync.py:187 | One error text `"{Kind} event {id}: {error}"` per failure, in order. |
| Sync.Fetched | app/sync.py:138-163 | A list is the fetch result, or `[]` when the fetch raised. |
| Sync.FetchError | app/sync.py:140-162 | A fetch adds an error message exactly when it raised. |
| Sync.GrowLists | app/sync.py:129-174 | A non-empty cached bundle supplies the four lists (a falsy entry reads as `[]`), adds no error and leaves the store unchanged. Otherwise each list is its fetch result or `[]`, with one `"{Kind} fetch: {e}"` error per failed fetch, in the order diapers, feedings, sleep, weight. The store then holds the fetched bundle under the baby's data key for `HATCH_CACHE_TTL_SECONDS` seconds, exactly when the cache is enabled, the SET answers, the bundle is encodable and the TTL is positive; otherwise it is unchanged. The request count grows by one per GET and per SET sent. |
| Sync.FetchedBundle | app/sync.py:166-174 | The bundle written back has exactly the four keys, each holding that kind's fetch result or `[]`. |
| Sync.PassesErr | app/sync.py:176-230 | Once one of the four loops raises, the remaining loops do not run and the baby's body raises that exception. |
| Sync.PassStateUnread | app/sync.py:176-230 | A loop reads its kind's seen ids as the state held them before the earlier loops, since those write only their own keys. |
| Sync.PassStateFrame | app/sync.py:176-230 | The four loops leave every key other than the baby's four as it was, present or absent. |
| Sync.GrowthStep | app/sync.py:176-188 | Writing back a kind's seen set, grown by the ids of the events created, grows the state by exactly those (key, id) pairs. |
| Sync.GrowthTrans | app/sync.py:118-230 | Two passes in a row grow the state by the events each created. |
| Sync.PassesGrowth | app/sync.py:176-230 | After the four loops, under every key the seen ids are the old ones plus exactly the ids of the events created for that key. |
| Sync.PassesConsistent | app/sync.py:176-230 | The four loops keep the invariant that every created event is recorded as seen under its key, with no (key, id) pair twice. |
| Sync.NextKind | app/sync.py:176-188 | One kind's loop: it raises exactly when the specified passes raise, and otherwise extends the state, the errors, the calendar's events and the request count by that loop's own part. |
| Sync.KindsDone | app/sync.py:176-230 | After the four loops the events only grew, the seen sets grew by exactly the created events' ids, and the invariant is kept. |
| Sync.SyncKinds | app/sync.py:176-230 | The four kinds in order. It raises exactly when the specified passes raise, with their exception. Otherwise: the new state is each kind's seen set written back; the errors are the old ones plus each failure's message, in order; the calendar gains exactly the created events and the request count moves to where the last loop left it; under every key the seen ids are the old ones plus exactly the ids of the events created (a failed record stays unseen); the invariant is kept. |
| Sync.SyncBaby | app/sync.py:119-230 | One baby. A baby that is not a dict or has no `id` raises. When the calendar lookup raises (exactly in the cases `Gcal.LookupError` names), the state and the events are unchanged and exactly one `"Calendar for {name}: {e}"` error is appended; the calendar list may still have grown, when the insert succeeded and the sharing failed. Otherwise the events only grow and `events_created` counts them, errors are only appended, the seen ids grow by exactly the created events' ids, the invariant is kept, and keys other than the baby's four are untouched. |
| Sync.LoginData | app/sync.py:107-115 | The login payload is the cached non-empty one, else the result of a fresh login (the same choice as `Api.LoginData`). The store gains the fresh login under `hatch:login` for 3000 seconds exactly when there was no cached login, the login succeeded, the cache is enabled, the SET answers and the payload is encodable; otherwise it is unchanged. |
| Sync.SyncBabies | app/sync.py:119-230 | Over all babies in order: events are only appended, `events_created` equals the number of events added, under every key the seen ids are the old ones plus exactly the ids of the events created, and the state/calendar invariant is kept. |
| Sync.RunSync | app/sync.py:73-233 | Missing credentials, a missing service-account file, a calendar auth error and a failed Hatch login each return one error and save nothing. A completed pass saves the loaded state (empty for a missing or unreadable file) grown by exactly the ids of the events created, under each key; it keeps the invariant when the loaded state did; its count equals the events added. |
| Gcal.ParseHatchDt | app/gcal_service.py:142-152 | The parsed time is a valid datetime whenever "now" is. |
| Gcal.ParseHatchDtEmpty | app/gcal_service.py:144-145 | An empty string parses to "now". |
| Gcal.ParseHatchDtTimestamp | app/gcal_service.py:146-149 | `YYYY-MM-DDThh:mm:ss` (or with a space), followed by anything (`Z`, fractions, offset), parses to that second; the tail is cut off. |
| Gcal.ParseHatchDtMinutes | app/gcal_service.py:146-149 | A 16-character `YYYY-MM-DDThh:mm` fails the seconds format and parses to that minute. |
| Gcal.ParseHatchDtDate | app/gcal_service.py:146-149 | A bare `YYYY-MM-DD` parses to midnight of that day. |
| Gcal.ParseHatchDtFallback | app/gcal_service.py:146-152 | Text whose first non-blank character is neither a digit nor `Z` matches no format and parses to "now". |
| Gcal.AddMinutes | app/gcal_service.py:155-156 | Adding n minutes adds 60n seconds, or raises when the result leaves the datetime range. |
| Gcal.TimestampOf | app/gcal_service.py:83-84 | A falsy field means "now"; a text field is parsed; any other truthy value raises. |
| Gcal.TruncMinutes | app/gcal_service.py:124 | `int(seconds / 60)` truncates toward zero: for a non-negative duration, the whole minutes at or below it (`60m <= s < 60m + 60`); for a negative one, the whole minutes at or above it (`60m - 60 < s <= 60m`). |
| Gcal.FirstTruthy | app/gcal_service.py:83 | A chain of `or`s yields the first truthy value, else the last. |
| Gcal.DiaperToEvent | app/gcal_service.py:81-91 | Start from `diaperDate`, else `createDate`; end is start + 5 minutes; summary `"Diaper - " + (diaperType or "Diaper")`; description the stripped details. |
| Gcal.DurationText | app/gcal_service.py:110 | `"Duration: {s//60}m {s%60}s"` for a non-negative integer duration; raises for non-numbers. |
| Gcal.FeedingParts | app/gcal_service.py:98-106 | The title words: method (default "Feeding"), the source when truthy, and `"{amount}g"` when amount is not None, in that order. |
| Gcal.FeedingDescription | app/gcal_service.py:108-111 | The duration text when `durationInSeconds` is present, else empty. |
| Gcal.FeedingEnd | app/gcal_service.py:112-113 | A truthy `endTime` is parsed; otherwise the end is start + 30 minutes. |
| Gcal.FeedingToEvent | app/gcal_service.py:94-114 | Start from `startTime`, else `createDate`; summary `"Feeding - "` + the parts joined by spaces; description and end as above. |
| Gcal.SleepEnd | app/gcal_service.py:121-123 | A sleep ends at its end field when one is given, else an hour after its start. |
| Gcal.SleepEvent | app/gcal_service.py:124-126 | A sleep event has no description and is titled with its whole minutes. |
| Gcal.SleepToEvent | app/gcal_service.py:117-126 | Start from `startTime`/`start`/`createDate`; end from `endTime`/`end`/`updateDate` or start + 60 minutes; summary `"Sleep - {n}m"` with n truncated toward zero. |
| Gcal.WeightToEvent | app/gcal_service.py:129-139 | It succeeds exactly when the start parses and start + 5 minutes stays in range. Start from `createDate`, else `weightDate`; end is start + 5 minutes; summary `"Weight - {w}g"` when `weight or weightInGrams` is not None, else `"Weight"`. |
| Gcal.Title | app/gcal_service.py:33 | The calendar title is the baby's name followed by exactly `" - Baby Tracker"`. |
| Gcal.TitleInjective | app/gcal_service.py:33 | Two names give the same title only when they are equal, so each baby has its own calendar. |
| Gcal.FindCalendar | app/gcal_service.py:36-40 | The position of the first calendar with the title, and None exactly when no calendar has it. |
| Gcal.SharedEffect | app/gcal_service.py:49-63 | After sharing, the calendar is shared with a non-empty address. Other calendars and existing rules are kept, and at most one writer rule is added. |
| Gcal.SharedIdempotent | app/gcal_service.py:49-63 | Sharing twice is sharing once. |
| Gcal.ShareError | app/gcal_service.py:49-63 | Sharing raises exactly when the address is non-empty and either the ACL listing fails, or the address has no user rule yet and the insert fails. |
| Gcal.CalendarService.EnsureShared | app/gcal_service.py:49-63 | An empty address does nothing and makes no request. It raises exactly as `ShareError` says and makes the requests `ShareRequests` counts (at most two). On success the ACLs are the shared ones; on failure they are unchanged. |
| Gcal.LookupError | app/gcal_service.py:28-46 | The lookup raises when the calendar listing fails; for a listed calendar with the title, exactly when its sharing does; otherwise exactly when the insert or the sharing of the new calendar fails. |
| Gcal.CalendarService.GetOrCreateBabyCalendar | app/gcal_service.py:28-46 | Returns the first calendar with the title, or a new calendar with the fixed description, appended to the list; the result is shared. It raises exactly when `LookupError` says, with that message. The list grows exactly when the listing and the insert succeed and no calendar has the title, whether or not the sharing then fails; the new calendar has the id the insert assigned. |
| Gcal.CalendarService.CreateEvent | app/gcal_service.py:66-75 | One insert request: on success the event is appended to the calendar's events, on failure nothing changes and the error is the insert error. |
| Cache.KeysInjective | app/cache.py:117-122 | Equal data keys (or photo keys) mean equal baby ids, among integer ids and among text ids. |
| Cache.KeyFamiliesDisjoint | app/cache.py:113-122 | The login key, the data keys and the photo keys never collide. |
| Cache.ChooseTtl | app/cache.py:135 | `ttl_seconds or default`: None and 0 select the default, any other value is kept. |
| Cache.Put | app/cache.py:73 | After `SET key EX ttl`, the key reads back the text until it expires and is absent afterwards; other keys are unchanged. |
| Cache.Decoded | app/cache.py:90-100 | An absent or undecodable value is a miss (None); decodable text gives its value. |
| Cache.SetThenGetJson | app/cache.py:103-110 | A value written with a positive TTL reads back unchanged before it expires, and writing it leaves other keys as they were. |
| Cache.AsObject | app/cache.py:127-130 | The login and grow-data getters return only dicts. |
| Cache.AsList | app/cache.py:159-162 | The photo getter returns only lists. |
| Cache.RedisCache.Get | app/cache.py:54-65 | A GET is a miss when the cache is disabled or the request fails or times out, else the stored unexpired value; the store is unchanged. |
| Cache.RedisCache.Set | app/cache.py:68-77 | A SET is a no-op when disabled or on failure, else stores the text with its TTL. |
| Cache.RedisCache.GetJson | app/cache.py:90-100 | A GET followed by decoding, with undecodable text read as a miss; the store is unchanged and one request is made when the cache is enabled. |
| Cache.RedisCache.SetJson | app/cache.py:103-110 | A value that cannot be encoded is never written and makes no request; otherwise it is written as `Set` does, with one request when the cache is enabled. |
| Cache.RedisCache.GetCachedLogin | app/cache.py:125-130 | The cached login is returned only when it is a dict; one request when the cache is enabled. |
| Cache.RedisCache.SetCachedLogin | app/cache.py:133-136 | The login is cached under `hatch:login` for `ttl or 3000` seconds. |
| Cache.RedisCache.GetCachedGrowData | app/cache.py:139-144 | The cached grow data is returned only when it is a dict; one request when the cache is enabled. |
| Cache.RedisCache.SetCachedGrowData | app/cache.py:147-154 | The bundle is cached under the data key for `ttl or HATCH_CACHE_TTL_SECONDS` seconds. |
| Cache.RedisCache.GetCachedPhotos | app/cache.py:157-162 | The cached photos are returned only when they are a list; one request when the cache is enabled. |
| Cache.RedisCache.SetCachedPhotos | app/cache.py:165-172 | The photos are cached under the photo key for `ttl or HATCH_CACHE_TTL_SECONDS` seconds. |
| Cache.RedisCache.RedisHealth | app/cache.py:175-193 | "disabled" when the cache is off (no request); otherwise one PING request, "ok" when it succeeds and "unavailable" when it fails. |
| Grow.Login | app/hatch_grow_service.py:14-21 | Login succeeds exactly when the response's status is "success", returning the whole response; otherwise it raises. |
| Grow.Payload | app/hatch_grow_service.py:24-37 | `_fetch` gives the payload of a "success" response and None for any other status or exception. |
| Grow.Contains | app/hatch_grow_service.py:47 | `key in payload` for a dict, list or string; any other payload raises. |
| Grow.KeepLive | app/hatch_grow_service.py:49 | The deleted-record filter succeeds exactly when every element is a dict, and never lengthens the list. |
| Grow.KeepLiveMembers | app/hatch_grow_service.py:49 | The records kept are exactly those not marked deleted. |
| Grow.KeepLiveAppend | app/hatch_grow_service.py:49 | The filter keeps the original order: it distributes over concatenation. |
| Grow.KeepLiveIdempotent | app/hatch_grow_service.py:49 | Filtering twice is filtering once. |
| Grow.Records | app/hatch_grow_service.py:49 | Iterating a list gives its elements; only empty strings and empty dicts are otherwise iterable without error. |
| Grow.FetchLive | app/hatch_grow_service.py:40-61 | `fetch_feedings`/`fetch_diapers`: `[]` when the payload is absent, empty or lacks the key; otherwise the list without deleted records. |
| Grow.FetchAll | app/hatch_grow_service.py:64-97 | `fetch_sleep`/`fetch_weight`/`fetch_photos`: `[]` when the payload is absent, empty or lacks the key; otherwise the unfiltered value, a falsy one read as `[]`. |
| Seed.Midnight | app/seed_data.py:22-23 | The base is midnight of the current day. |
| Seed.SeedFeedingFacts | app/seed_data.py:62-91 | Feeding k has id k+1 and baby 1. It starts at its hour; it lasts 20 minutes at 7, 19 and 22 and 15 otherwise. The amount is 90 at 7 and 19, else 70. It is a Formula bottle exactly at 11 and 15, otherwise nursing on both sides. |
| Seed.SeedDiaperFacts | app/seed_data.py:94-109 | Diaper k has id k+1 and baby 1 and falls at 6, 9, 12, 15, 18 or 21 o'clock. Its details are "Messy" exactly when it is "Dirty". |
| Seed.SeedSleep | app/seed_data.py:111-144 | Sleep k has id k+1 and baby 1. Each day's first sleep is a 10-hour night from 20:00 the day before; the naps last 60, 90 or 45 minutes; every sleep ends after it starts. |
| Seed.SeedWeight | app/seed_data.py:146-162 | Weight j is measured at 10:00 on day offset 3j and equals 3200 + (20 − 3j)·30. |
| Seed.WeightsGrow | app/seed_data.py:147-150 | Later weights are measured later and weigh more, 90 g per three days. |
| Seed.FeedingsExtend | app/seed_data.py:65-91 | Appending the next generated feeding keeps the list the generated prefix. |
| Seed.DiapersExtend | app/seed_data.py:95-109 | Appending the next generated diaper keeps the list the generated prefix. |
| Seed.SleepsExtend | app/seed_data.py:113-144 | Appending the next generated sleep keeps the list the generated prefix. |
| Seed.AppendFeedings | app/seed_data.py:63-91 | One day's six feedings extend the list and the id counter in step. |
| Seed.AppendDiapers | app/seed_data.py:94-109 | One day's six diapers extend the list and the id counter in step. |
| Seed.AppendSleeps | app/seed_data.py:113-144 | One day's night sleep and three naps extend the list and the id counter in step. |
| Seed.AppendWeight | app/seed_data.py:147-162 | A weighing day adds the next weight and bumps its counter. |
| Seed.GetSeedGrowData | app/seed_data.py:27-171 | One baby "Uma" born 20 days ago; 84 feedings, 84 diapers and 56 sleeps with consecutive ids from 1 in generation order; exactly 5 weights; an overflow error when the day is within 20 days of year 1. |
| Devices.Credentials | app/hatch_service.py:14-21 | ValueError exactly when the email or password is unset or empty; otherwise both are returned. |
| Devices.DeviceId | app/hatch_service.py:44 | `device_id`, falling back to `thing_name` when falsy. |
| Devices.DeviceName | app/hatch_service.py:43 | `name`, else `device_name`, else "Unknown"; never falsy. |
| Devices.DeviceToDict | app/hatch_service.py:40-54 | The dict has name, device_id, model and is_online, plus volume, is_playing and audio_track exactly when the device has them. |
| Devices.DeviceToDictFields | app/hatch_service.py:42-53 | What each key of the dict holds. |
| Devices.FirstTarget | app/hatch_service.py:70-72 | The first device with the id (and the needed capability), and None exactly when there is none. |
| Devices.FirstTargetUnique | app/hatch_service.py:70-72 | A device with the id that no earlier device matches is the one found. |
| Devices.GetDevices | app/hatch_service.py:24-37 | Missing credentials raise ValueError. Auth and rate errors become ValueError and other listing errors pass through. Otherwise every device is mapped through `_device_to_dict`, in order. |
| Devices.FindByDeviceId | app/hatch_service.py:60-63 | The first dict whose `device_id` equals the id, or None when none does. |
| Devices.DictSearch | app/hatch_service.py:59-63 | Searching the dicts finds the same device as searching the devices by id. |
| Devices.GetDeviceById | app/hatch_service.py:57-63 | The dict of the first device with the id, or None; `get_devices` errors pass through. |
| Devices.SetVolume | app/hatch_service.py:66-75 | The first device with the id and a volume setter gets the call and its dict is returned; None when there is no such device. |
| Devices.AvailableTracks | app/hatch_service.py:80-83 | A device's own tracks, else the built-in table for its model. |
| Devices.FirstTrack | app/hatch_service.py:85-88 | The first track answering to the name, and None exactly when none does. |
| Devices.FirstTrackUnique | app/hatch_service.py:85-88 | A track answering to the name that no earlier track answers to is the one found. |
| Devices.ResolveAudioTrack | app/hatch_service.py:78-88 | The track found answers (lower-cased) to the stripped, lower-cased name; None only when no available track does. |
| Devices.UnknownTrackMessage | app/hatch_service.py:101 | The message starts with "Unknown audio track". |
| Devices.SetAudioTrack | app/hatch_service.py:91-104 | Devices without the id or a track setter are skipped. The first remaining one resolves the name: an unknown name raises ValueError, a known one is set and its dict returned. None when no device qualifies. |
| Api.NonEmptyStripped | app/main.py:75 | Stripping and dropping empties never lengthens the list. |
| Api.NonEmptyStrippedTrimmed | app/main.py:75 | Every entry kept is non-empty and has no surrounding whitespace. |
| Api.NonEmptyStrippedAppend | app/main.py:75 | The filter keeps order: it distributes over concatenation. |
| Api.NonEmptyStrippedKeeps | app/main.py:75 | A list of clean entries is kept as it is. |
| Api.NonEmptyStrippedBlank | app/main.py:75 | Empty pieces all disappear. |
| Api.CorsOrigins | app/main.py:69-75 | A blank setting gives the three defaults; otherwise every origin is non-empty and stripped. |
| Api.BlankCors | app/main.py:74-75 | An unset or all-whitespace `CORS_ORIGINS` gives the three defaults. |
| Api.CommaOnlyCors | app/main.py:74-75 | A setting of only commas gives the empty list, not the defaults. |
| Api.CorsRoundTrip | app/main.py:74-75 | Joining clean, comma-free origins with commas and parsing gives them back, in order. |
| Api.LoginData | app/main.py:114-120 | A cached non-empty login is used, else the fresh login. |
| Api.Babies | app/main.py:121 | No payload means no babies; a payload that is not a dict raises; a dict payload gives its `babies` entry, or `[]` without one. |
| Api.FirstBabyId | app/main.py:124 | `babies[0]["id"]` succeeds exactly for a non-empty list whose first element is a dict with an id. |
| Api.CachedList | app/main.py:130-133 | `cached.get(key) or []`. |
| Api.GrowData | app/main.py:105-157 | 503 exactly when credentials are missing; a failed login is 503 "Login failed: …". |
| Api.GrowDataNoBabies | app/main.py:121-123 | With no babies, the response has the five keys and all of them are empty lists, whatever is cached or fetched. |
| Api.GrowDataCacheHit | app/main.py:126-134 | A non-empty cached bundle answers alone: each list is cached or `[]`, and the fetches play no part. |
| Api.GrowDataFetched | app/main.py:135-157 | On a cache miss each list is what its fetch returned, or `[]` when that fetch raised, next to the payload's babies. |
| Api.GrowDataCrash | app/main.py:121-125 | After login, the handler raises exactly when the payload is not a dict, or there is a baby and `babies[0]["id"]` or `login_data["token"]` fails; a missing token raises `KeyError: 'token'`. |
| Api.GrowPhotos | app/main.py:162-192 | 503 exactly when credentials are missing; a failed login is 503 "Login failed: …". |
| Api.GrowPhotosNoBabies | app/main.py:180-183 | With no babies the answer is `{"photos": []}`, whatever is cached or fetched. |
| Api.GrowPhotosCached | app/main.py:186-188 | Any cached photo list, the empty one included, is the answer. |
| Api.GrowPhotosFetched | app/main.py:190-192 | With nothing cached the answer is the fetched photo list; an exception from `fetch_photos` escapes. |
| Api.GrowPhotosCrash | app/main.py:180-192 | After login, the handler raises exactly when the token is missing, the payload is not a dict, or there is a baby and either `babies[0]["id"]` fails or nothing is cached and the fetch raises. |
| Api.TokenReadOrder | app/main.py:121-183 | A login without a token still gets a data response when there is no baby, but the photo endpoint fails, because it reads the token first. |
| Api.Health | app/main.py:92-102 | The status is "ok", the Redis status is passed through, and Hatch counts as configured only when both variables are non-blank once stripped. |
| Api.BlankCredentialsDisagree | app/main.py:95-97 | Whitespace credentials pass `get_credentials` but `/health` reports Hatch as not configured. |
| Api.ListDevices | app/main.py:207-214 | Missing credentials or an auth or rate error give 503; otherwise the devices' dicts, in order. |
| Api.DeviceDetail | app/main.py:217-226 | The first device with the id, 404 when none, 503 for ValueError. |
| Api.DeviceSetVolume | app/main.py:229-240 | 400 exactly when the volume is outside [0, 1], before any device call; then 503 for missing credentials, 404 when no capable device has the id, otherwise the device's dict. |
| Api.TrackResponse | app/main.py:249-258 | A ValueError mentioning "Unknown audio track" is 400 and any other ValueError 503, each with the exception's text as detail; None is 404; a device dict is the body; any other exception escapes. |
| Api.TrackMessages | app/main.py:256 | The unknown-track message contains the phrase and the credentials message does not. |
| Api.DeviceSetAudioTrack | app/main.py:243-258 | 503 exactly for missing credentials; a listing failure escapes; 404 exactly when no track-capable device has the id; 400 with the unknown-track message exactly when the addressed device does not know the track; otherwise the device's dict, with the track command sent to that device. Nothing is sent in the other cases. |
| Time.DateTimeTextRoundTrip | app/gcal_service.py:147-149 | `strptime` with `"%Y-%m-%d %H:%M:%S"` reads back what `strftime` wrote. |
| Time.StrptimeSecondsCanonical | app/gcal_service.py:147-149 | Every string that format accepts is the formatted text of the datetime it yields. |
| Time.MinutesRoundTrip | app/gcal_service.py:147-149 | `strptime("%Y-%m-%d %H:%M")` reads the first 16 characters of a formatted datetime back as that minute. |
| Time.LeadingNonDigit | app/gcal_service.py:146-151 | Text that does not begin with a digit matches none of the three `strptime` formats. |
| Time.DateRoundTrip | app/gcal_service.py:147-149 | `strptime("%Y-%m-%d")` reads back a formatted date as midnight. |
| Time.DateTimeRoundTrip | app/seed_data.py:20-24 | Converting a calendar datetime to seconds and back is the identity. |

## Left out

- **I/O, the network, the clock and concurrency.** The aiohttp sessions and timeouts, the Google API client, the Redis client (`wait_for`, `ping`), APScheduler, FastAPI routing and the CORS middleware are represented only by their outcomes. So are `asyncio.gather`, `datetime.utcnow()` and the file I/O of `_load_state`/`_save_state`.
- **`_save_state`.** It is the `saved` state of `Sync.RunSync`'s outcome.
- **`trigger_sync`, `root`, `lifespan` and `get_calendar_service`.** These are thin wrappers around I/O.
- **The 504 answer to `asyncio.TimeoutError`** (`app/main.py:158-159`, `193-194`). It is not modelled, because timeouts are not inputs of the model.
- **The cache writes in `grow_data` and `grow_photos`** (`app/main.py:120`, `147-150`, `191`). `Api` models the handlers as functions of what was read, so these writes are not part of its results. The login and bundle writes are the same calls that `Sync.LoginData` and `Sync.GrowLists` make, and those contracts state the resulting store; the photo write is `Cache.RedisCache.SetCachedPhotos`.
- **Floating point.**
  - JSON numbers are integers in the model (`Json.Value` has no float case). So float amounts, weights, durations and ids are not modelled, and neither is their Python text (`90.5g`, `Duration: 1.0m 30.5s`).
  - Volume is a `real` and only compared against 0 and 1.
  - `total_seconds() / 60` is integer truncation (`Gcal.TruncMinutes`).
  - `timedelta(hours=1.5)` and `timedelta(hours=0.75)` are 90 and 45 minutes.
- **`strptime`** is fixed-width: one-digit fields, which Python accepts, are rejected.
- **Time zones.** All times are naive UTC seconds.
- **Unicode.** `str.lower()` lowers only ASCII letters, and `repr()` of a track name (`Devices.Quoted`) does not escape quotes or backslashes.
- **`str()` of nested JSON values** (`Json.Show`) is a placeholder beyond strings, integers, booleans and None. Only the text of ids, names and amounts matters to the model.
- **Python's `True == 1`** in sets and dict keys is not modelled: `Bool(true)` and `Int(1)` are different ids.
- **`HATCH_CACHE_TTL_SECONDS` parsing.** The data TTL is a field of `Cache.RedisCache`, not parsed from text. Its default of 900 seconds and a non-numeric value, which crashes the import, are not modelled.
- **JSON text.** `json.dumps`/`json.loads` are an abstract codec (`Json.Dumps`, `Json.Loads`), related by a round-trip law rather than by a character-level grammar.
- **The text form of the seed data.** Seed records keep instants, not the `strftime` text, and the `deleted`, `createDate` and `updateDate` fields that repeat them are not kept.
- **The device library.** Its internals, the device state after a setter call (the returned dict is the one from before the call) and the order of awaits are not modelled; a setter call is recorded as a `Command`.
- **Gcal.ParseHatchDt**: its contract states only validity; what it parses is stated by the lemmas beside it, for the date, minute and second forms, the empty string and non-date text. Other inputs, such as an invalid date with digits, are left to the definition.
- **Gcal.SleepToEvent**: the summary is stated through `Gcal.SleepEvent` on the parsed start and end, without the raising cases of an unparseable non-text field spelt out.
- **Api.GrowData and Api.GrowPhotos**: their own contracts state only the credential and login branches. The other branches are stated by lemmas: no babies (`Api.GrowDataNoBabies`, `Api.GrowPhotosNoBabies`), cache hit (`Api.GrowDataCacheHit`, `Api.GrowPhotosCached`), cache miss (`Api.GrowDataFetched`, `Api.GrowPhotosFetched`), the exceptions that escape (`Api.GrowDataCrash`, `Api.GrowPhotosCrash`) and the token read order (`Api.TokenReadOrder`).
- **Sync.SyncBabies**: does not state which error messages are added. `Sync.SyncBaby` states the calendar error, `Sync.GrowLists` the fetch errors, and `Sync.SyncKinds` the record errors (through `Sync.PassMessages` and `Sync.Messages`).
- **Sync.SyncBaby**: in the branch where the calendar is found, its errors are stated only to grow. The errors added are the fetch errors of `Sync.GrowLists` followed by the record errors of `Sync.SyncKinds`, but the contract does not spell them out as one expression.
- **Sync.SyncKinds**: takes the converter as a parameter. `Sync.SyncBaby` passes the four converters at the pass's fixed "now" (`Sync.ConvertAt`).
- **Sync.RunSync**: the crash outcomes (a login without a token, a malformed payload) are modelled, but no contract lists them; a pass that raises saves nothing by construction of its outcome type.
