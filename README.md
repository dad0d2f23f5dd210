# hbnb service core, modelled in Dafny

The HBnB back end keeps users, places, amenities and reviews. It exposes them
through a service facade: create, get, list, update and delete for each
entity, plus the cross-checks between them. A place must have a stored owner.
A review needs a stored user and a stored place, its ids are frozen, and its
rating runs from 1 to 5.

This project models two generations of that facade:

- **part2 facade:** keeps four Python dicts of plain records (`InMemoryFacade`).
- **part3 facade:** goes through one SQL repository per model class
  (`RepositoryFacade`).

It also models the pieces those two facades rely on:

- the repositories: part3's `InMemoryRepository` and the `SQLAlchemyRepository`
  contract (`Repositories`), and the business layer's in-memory repository
  (`BusinessRepositories`);
- the self-validating entities `User`, `Place`, `Review` and `Amenity`
  (`Models`);
- the two `BaseModel` classes (`BaseModels`, `PersistenceModels`).

Python values are modelled as `Values.Value`: `None`, bool, int, float, str,
list and dict. A Python dict is an insertion-ordered map (`OrderedDicts.ODict`).
Each `raise` becomes a `Failure` carrying the matching `Errors.Error`.

The validation rules are stated once, as functions:

- `UserRules`, `PlaceRules`, `ReviewRules` and `AmenityRules` give the entities'
  own checks;
- `Payloads` gives the facades' checks on request payloads.

For each facade operation, the model proves the order in which the checks
raise and the record that operation stores. For each entity, it proves which
checks pass exactly when the constructor accepts. Lemmas tie the two layers
together: a payload that passes the facades' guards describes a place the
`Place` constructor accepts (`Payloads.PayloadMakesValidPlace`,
`PlaceRules.GuardsImplySetters`).

Both facades are classes whose fields are the tables. Each state-changing
operation is a method. Its postcondition gives the new tables in terms of the
old ones through `OrderedDicts.Put`/`Remove`, and it keeps the class invariant
`Valid()`. Queries are functions with a `reads` clause, or loop methods without a
`modifies` clause (`InMemoryFacade.Facade.GetPlaces`, `ResolveAmenities`,
`RepositoryFacade.Facade.ResolveAmenityIds`).

Inputs the program takes from its environment are parameters of the
operations:

- `uuid4()` is `newId`;
- `datetime.now()` is `now`;
- for the part3 facade, the database session is the repositories' fields.

## Model

| member | source | states |
|---|---|---|
| Values.Strip | part3/app/models/user.py:31 | `s.strip()`: never longer than `s`; empty exactly when every character is whitespace; otherwise starts and ends with a non-space; always the part of `s` between its leading and its trailing whitespace |
| Values.ToInt | part3/app/services/facade.py:246 | `int(v)` succeeds exactly on numbers (bool, int, float); an int is kept, a float is truncated toward zero, `True` is 1 and `False` is 0 |
| Values.Truncate | part3/app/services/facade.py:246 | `int()` of a float rounds toward zero: the result lies within one of `f` on the side of zero |
| Values.EqualIsReflexiveAndSymmetric | part3/app/services/facade.py:325-329 | Python `==` is reflexive and symmetric; on a string it is plain equality |
| Values.Iterate | part3/app/services/facade.py:206-207 | what `for x in v` visits: a list's items or a string's characters; anything else is not iterable |
| OrderedDicts.Put | part2/business/persistence/repositories/in_memory_repository.py:16-19 | `d[k] = v` keeps the dict well formed; a new key goes last in the order and an existing key keeps its place |
| OrderedDicts.Remove | part2/business/persistence/repositories/in_memory_repository.py:21-24 | `del d[k]` when present: only `k` goes, the order keeps no duplicates, and a missing key changes nothing |
| OrderedDicts.ValuesOf | part2/business/persistence/repositories/in_memory_repository.py:8-10 | `list(d.values())` has one entry per key, in key order |
| OrderedDicts.ValuesAreStored | part3/app/persistence/repository.py:50-51 | a value is in `list(d.values())` exactly when some key maps to it |
| OrderedDicts.PutFrame | part3/app/persistence/repository.py:44-45 | assigning one key leaves every other key's presence and value unchanged |
| Records.CopyKeys | part3/app/persistence/repository.py:120-122 | the `setattr` loop over `data.items()` yields `Overwritten(target, data, keys)` whatever order it visits the keys in |
| Records.OverwrittenIdempotent | part2/app/services/facade.py:641-644 | copying nothing changes nothing; copying the same data twice equals copying it once |
| Records.AddOnceIdempotent | part3/app/models/place.py:120-123 | `if x not in xs: xs.append(x)` is idempotent and never creates a duplicate |
| Records.WhereKeepsAll | part3/app/services/facade.py:22 | a filter every row passes returns the rows unchanged, in order |
| UserRules.EmailMatchesIffPattern | part3/app/models/user.py:44-47 | the first-`@`, first-`.` matcher accepts exactly the language of the email regular expression |
| UserRules.ValidEmailHasOneAt | part3/app/models/user.py:45 | every address the pattern accepts has exactly one `@` |
| UserRules.CheckName | part3/app/models/user.py:31-39 | a name passes exactly when it is a string of at most 50 characters that is not all whitespace; a falsy or blank one is "empty"; a long one is "too long"; a truthy non-string cannot be stripped (`NoStrip`) |
| UserRules.CheckEmail | part3/app/models/user.py:41-47 | an email passes exactly when it is a string in the pattern's language; a falsy or blank one is "empty", a truthy non-string cannot be stripped (`NoStrip`), and any other string outside the language is "Invalid email format" |
| UserRules.CheckUser | part3/app/models/user.py:31-47 | passes exactly when both names and the email are valid; otherwise it returns the first failing check, in the order first name, last name, email |
| PlaceRules.CheckTitle | part3/app/models/place.py:49-54 | a title passes exactly when it is truthy, has a length and is at most 100 long |
| PlaceRules.CheckPrice | part3/app/models/place.py:83-90 | the price setter accepts exactly the numbers ≥ 0 and stores their float value; a non-number is "must be a number" and a negative is "cannot be negative" |
| PlaceRules.CheckLatitude | part3/app/models/place.py:97-104 | the latitude setter accepts exactly the numbers in [-90, 90] and stores their float value |
| PlaceRules.CheckLongitude | part3/app/models/place.py:111-118 | the longitude setter accepts exactly the numbers in [-180, 180] and stores their float value |
| PlaceRules.CoordinateBoundsInclusive | part3/app/models/place.py:102 | both ends of each coordinate range are accepted and anything past them is refused |
| PlaceRules.CheckPlace | part3/app/models/place.py:34-44 | `Place.__init__` passes exactly when the title, the owner, the price, the latitude and the longitude all pass, in that order; the first failure is returned, for each of the five checks |
| PlaceRules.PriceGuard | part3/app/services/facade.py:131-132 | the facades' price guard passes exactly when no price is sent, or the price is a number ≥ 0; a non-number is "not a number", a negative number "cannot be negative" |
| PlaceRules.RangeGuard | part3/app/services/facade.py:135-139 | the facades' coordinate guard passes exactly when the key is absent, or its value is a number within the bounds; a non-number is "not a number", a number outside the bounds the given out-of-range error |
| PlaceRules.NumberGuards | part3/app/services/facade.py:186-193 | the three guards run in the order price, latitude, longitude; all pass, or the first failure is returned, the longitude guard's included |
| PlaceRules.GuardsImplySetters | part3/app/services/facade.py:130-139 | whatever the facades' guards let through, the `Place` setters accept |
| PlaceRules.SettersRefusalIsGuarded | part3/app/models/place.py:86-89 | a sent price the setter refuses is refused by the facade guard, with the facade's own error |
| ReviewRules.CheckText | part2/app/models/review.py:40-44 | review text passes exactly when it is a string that is not all whitespace; a falsy or blank text is "empty", a truthy non-string cannot be stripped (`NoStrip`) |
| ReviewRules.CheckRating | part2/app/models/review.py:46-50 | a rating passes exactly when it is an int in [1, 5], or `True` (a bool is an int) |
| ReviewRules.RatingBoundsInclusive | part2/app/models/review.py:49 | 1 and 5 are accepted; 0, 6 and the float 3.0 are refused |
| ReviewRules.CheckReview | part2/app/models/review.py:26-29 | `Review.__init__` passes exactly when the text, the rating, the place and the user all pass, in that order; the first failure is returned |
| ReviewRules.NormalizeRating | part3/app/services/facade.py:243-251 | a sent rating must convert with `int()` into [1, 5]; the payload keeps its keys and the rating is replaced by its integer; every failure is the one "integer between 1 and 5" error |
| ReviewRules.NormalizedRatingIsValid | part2/app/services/facade.py:505-513 | the rating the facade lets through is one `Review` accepts, and is the truncation of what was sent |
| ReviewRules.NormalizeRatingIdempotent | part2/app/services/facade.py:628-635 | normalising an already normalised payload changes nothing |
| AmenityRules.CheckAmenityName | part2/app/models/amenity.py:18-22 | a name passes exactly when it is truthy, has a length and is at most 50 long; for a string this means length 1 to 50; a falsy or too-long name is the "between 1 and 50" error, a truthy value without a length cannot be measured (`NoLen`) |
| AmenityRules.BlankNameAccepted | part2/app/models/amenity.py:21 | a name made only of spaces passes, because nothing is stripped; the empty name fails |
| AmenityRules.CreateNameGuard | part3/app/services/facade.py:51-52 | `create_amenity` passes exactly when a truthy name is sent |
| AmenityRules.UpdateNameGuard | part3/app/services/facade.py:96-97 | `update_amenity` passes exactly when no name is sent, or the name is a non-blank string; a blank name and a non-string name each raise their own error |
| Payloads.UserKeysCheck | part3/app/services/facade.py:29-33 | the three required keys are read in order; the first missing one raises `KeyError` |
| Payloads.UserPayloadCheck | part3/app/services/facade.py:27-34 | `create_user` passes exactly when the three keys are present and `User`'s checks pass; otherwise it returns the first error |
| Payloads.TitleGuard | part3/app/services/facade.py:114-118 | the facades' title guard passes exactly on a truthy title of length at most 100 |
| Payloads.TitleGuardAgreesWithPlace | part3/app/models/place.py:49-54 | the facades' title guard and `validate_title` accept the same titles |
| Payloads.PlacePayloadCheck | part3/app/services/facade.py:113-139 | `create_place` checks the title, that an owner id is present, that the owner is known, then the three numbers; all pass, or the first failure is returned |
| Payloads.PayloadMakesValidPlace | part3/app/services/facade.py:143-148 | a payload that passes every check yields arguments the `Place` constructor accepts |
| Payloads.ReviewPayloadCheck | part3/app/services/facade.py:233-255 | `create_review` passes exactly when the user is known, the place is known, the rating normalises and the text is truthy; each failure is that check's error |
| Payloads.ReviewUpdateCheck | part3/app/services/facade.py:324-343 | `update_review` refuses a sent `user_id` or `place_id` that differs from the stored one, then normalises the rating, then refuses sent text that is falsy |
| Payloads.SameIdsAccepted | part2/app/services/facade.py:620-625 | sending back the stored ids is accepted; only a different id is refused |
| Payloads.PlaceFields | part3/app/services/facade.py:143-148 | exactly the five payload fields of a new place: the title, the description (default `''`) and the three numbers as `float` of the sent value (0.0 when absent); together they pass `Place`'s checks |
| PlaceViews.KnownSummary | part2/app/services/facade.py:304-309 | the owner summary of a stored user: its id, then the name and email with the given default |
| PlaceViews.UnknownSummary | part2/app/services/facade.py:344-349 | the owner summary of an unknown owner: the id or `''`, with "(unknown)" for the other fields |
| PlaceViews.OwnerView | part2/app/services/facade.py:334-349 | a truthy, known owner id gives the known summary; anything else gives the unknown one |
| PlaceViews.SummariesOfKnownIds | part2/app/services/facade.py:275-283 | the amenity list `create_place` builds keeps exactly the known ids, in order, each summarised from its stored amenity |
| PlaceViews.LinkPlaceIdempotent | part2/app/services/facade.py:458-461 | linking a place to an amenity twice is the same as linking it once |
| PlaceViews.LinkedSnocKnown | part2/app/services/facade.py:442-461 | one more known id re-links only that amenity |
| PlaceViews.LinkedSnocUnknown | part2/app/services/facade.py:443 | one more unknown id changes no amenity |
| PlaceViews.LinkPlaceKeepsSummary | part2/app/services/facade.py:448-461 | linking does not change what an amenity's summary shows |
| PlaceViews.FullSummariesOfKnownIds | part2/app/services/facade.py:442-455 | `update_place`'s amenity list keeps exactly the known ids, in order |
| PlaceViews.ListedShape | part2/app/services/facade.py:690-750 | a listed place has every required field (missing ones take their defaults) plus an owner summary and an amenity list; its other fields are shown unchanged |
| PlaceViews.Viewed | part2/app/services/facade.py:331-349 | `get_place` shows the stored record with its `owner` replaced by the owner view, and nothing else changed |
| InMemoryFacade.Refreshed | part2/app/services/facade.py:410-430 | after `update_place`'s writes: every sent key but `id` replaces the stored one; `updated_at` is now; the owner summary follows the possibly new owner when that owner is stored; otherwise `owner` is as copied |
| InMemoryFacade.NewUser | part2/app/services/facade.py:53-71 | the record `create_user` stores: exactly the id, the sent names and email, `is_admin` (False by default) and one clock reading as both timestamps |
| InMemoryFacade.NewPlaceShape | part2/app/services/facade.py:289-310 | the place `create_place` stores has the new id, the sent title, numbers that `Place` accepts, the owner's summary and the amenity summaries |
| InMemoryFacade.NewReview | part2/app/services/facade.py:524-535 | the record `create_review` stores: exactly the id, text, rating, both ids and one clock reading as both timestamps, with the code's defaults |
| InMemoryFacade.LinkedKeepsShape | part2/app/services/facade.py:458-461 | linking keeps every amenity's `places` a list |
| InMemoryFacade.Facade.constructor | part2/app/services/facade.py:8-16 | four empty tables |
| InMemoryFacade.Facade.GetUsers | part2/app/services/facade.py:41-44 | a user is listed exactly when it is stored and not flagged `is_test_user` |
| InMemoryFacade.Facade.GetUser | part2/app/services/facade.py:46-47 | the stored user, or None exactly when the id is unknown |
| InMemoryFacade.Facade.CreateUser | part2/app/services/facade.py:49-72 | succeeds exactly when the user checks pass; then `NewUser` is stored under the new id; on failure nothing changes and the first error is returned |
| InMemoryFacade.Facade.UpdateUser | part2/app/services/facade.py:74-84 | None for an unknown id; a missing key raises and changes nothing; otherwise the three name keys are overwritten without validation |
| InMemoryFacade.Facade.CreateAmenity | part2/app/services/facade.py:122-151 | succeeds exactly when a truthy name is sent; the new amenity has that name, no places and one timestamp for both |
| InMemoryFacade.Facade.GetAmenity | part2/app/services/facade.py:153-168 | the stored amenity, or "Amenity not found" exactly when it is not stored |
| InMemoryFacade.Facade.GetAllAmenities | part2/app/services/facade.py:170-185 | every stored amenity in insertion order, each with its `places` list |
| InMemoryFacade.Facade.UpdateAmenity | part2/app/services/facade.py:187-221 | an unknown id raises first, then the name guard; on success the name is replaced, `updated_at` is now and `places` is kept |
| InMemoryFacade.Facade.ResolveAmenities | part2/app/services/facade.py:275-283 | the loop returns the summaries of the known ids, in order |
| InMemoryFacade.Facade.CreatePlace | part2/app/services/facade.py:223-321 | the payload checks decide failure with their error; a non-iterable amenity list becomes "Failed to create place"; otherwise `NewPlace` is stored under the new id |
| InMemoryFacade.Facade.GetPlace | part2/app/services/facade.py:323-376 | None exactly when the id is unknown; otherwise the stored record with its owner summary |
| InMemoryFacade.Facade.GetPlaces | part2/app/services/facade.py:672-757 | one listed entry per stored place, in insertion order |
| InMemoryFacade.Facade.LinkAmenities | part2/app/services/facade.py:442-461 | the loop returns the full summaries of the known ids and links the place from exactly those amenities |
| InMemoryFacade.Facade.RefreshPlace | part2/app/services/facade.py:414-430 | the copy loop plus the owner refresh give `Refreshed` |
| InMemoryFacade.Facade.UpdatePlace | part2/app/services/facade.py:387-466 | None for an unknown id; a failed numeric guard or an unknown owner changes nothing; otherwise the place is `Refreshed`; a sent amenity list is linked and resolved; a non-iterable list raises after the record was changed |
| InMemoryFacade.Facade.DeletePlace | part2/app/services/facade.py:468-480 | True exactly when the place existed; only that place is removed |
| InMemoryFacade.Facade.CreateReview | part2/app/services/facade.py:482-539 | fails with the first failed check (user, place, rating, text) and changes nothing; otherwise `NewReview` of the normalised payload is stored |
| InMemoryFacade.Facade.GetReview | part2/app/services/facade.py:541-554 | the stored review, or None exactly when it is unknown |
| InMemoryFacade.Facade.GetAllReviews | part2/app/services/facade.py:556-566 | a review is listed exactly when it is stored |
| InMemoryFacade.Facade.GetReviewsByPlace | part2/app/services/facade.py:568-595 | an unknown place raises; otherwise a review is listed exactly when it is stored and names that place |
| InMemoryFacade.Facade.UpdateReview | part2/app/services/facade.py:597-649 | None for an unknown id; the checks fail with no change; otherwise every sent key except the frozen ones is copied and `updated_at` is now |
| InMemoryFacade.Facade.DeleteReview | part2/app/services/facade.py:651-670 | True exactly when the review existed; only that review is removed |
| BaseModels.BaseModel.constructor | part2/app/models/base_model.py:7-11 | the given id, and one clock reading as both timestamps |
| BaseModels.BaseModel.Save | part2/app/models/base_model.py:22-24 | only `updated_at` moves |
| BaseModels.BaseModel.ToDict | part2/app/models/base_model.py:14-20 | exactly the id and the two timestamps |
| Models.User.Init | part3/app/models/user.py:49-53 | a user the checks accept stores its sent fields and starts with no reviews |
| Models.User.Create | part3/app/models/user.py:19-53 | succeeds exactly when `CheckUser` passes, with its first error otherwise; a new user has a fresh base, the sent fields and no reviews |
| Models.User.AddReview | part3/app/models/user.py:55-58 | the review list becomes `AddOnce` of the old one |
| Models.User.ToDict | part3/app/models/user.py:60-69 | the base entries plus exactly the four user fields |
| Models.Place.Init | part3/app/models/place.py:38-46 | a place the checks accept stores its fields and starts with no amenities or reviews |
| Models.Place.Create | part3/app/models/place.py:21-46 | succeeds exactly when `CheckPlace` passes, with its first error otherwise; a new place stores the numbers as floats and has empty lists |
| Models.Place.SetOwner | part3/app/models/place.py:72-76 | a missing owner is refused and the owner is kept; otherwise it is replaced |
| Models.Place.SetPrice | part3/app/models/place.py:83-90 | accepted exactly when `CheckPrice` accepts; the stored price is never negative; a refused value changes nothing |
| Models.Place.SetLatitude | part3/app/models/place.py:97-104 | accepted exactly when `CheckLatitude` accepts; a refused value changes nothing |
| Models.Place.SetLongitude | part3/app/models/place.py:111-118 | accepted exactly when `CheckLongitude` accepts; a refused value changes nothing |
| Models.Place.AddAmenity | part3/app/models/place.py:120-123 | the amenity list becomes `AddOnce` of the old one |
| Models.Place.AddReview | part3/app/models/place.py:125-128 | the review list becomes `AddOnce` of the old one |
| Models.Place.ToDict | part3/app/models/place.py:130-142 | the base entries plus exactly the place fields, with the owner's id and the amenities' ids in order |
| Models.Place.OwnFields | part3/app/models/place.py:133-141 | exactly the seven entries `to_dict` adds |
| Models.Review.Init | part2/app/models/review.py:31-34 | a review the checks accept stores its text, rating, place and user |
| Models.Review.Create | part2/app/models/review.py:17-38 | succeeds exactly when `CheckReview` passes; only the `reviews` lists of the place and the user may change; on failure neither changes; on success the review is appended once to the place's and to the user's reviews |
| Models.Review.ToDict | part2/app/models/review.py:60-69 | the base entries plus exactly the text, the rating and the place's and user's ids |
| Models.Amenity.Init | part2/app/models/amenity.py:14-16 | an accepted name is stored; the amenity starts with no places |
| Models.Amenity.Create | part2/app/models/amenity.py:7-16 | succeeds exactly when `CheckAmenityName` passes |
| Models.Amenity.AddPlace | part2/app/models/amenity.py:24-28 | the place list becomes `AddOnce` of the old one; a place not yet listed also lists this amenity; a listed place changes nothing |
| Models.Amenity.ToDict | part2/app/models/amenity.py:30-36 | the base entries plus exactly the name |
| PersistenceModels.Updated | part2/business/persistence/models/base_model.py:18-23 | after `update(data)`, every sent key outside `id`/`created_at`/`updated_at` is written, the other attributes are kept, and `updated_at` is now |
| PersistenceModels.UpdatedKeepsIdentity | part2/business/persistence/models/base_model.py:20-23 | `update` never adds, removes or changes the id or the creation time |
| PersistenceModels.UpdatedIdempotent | part2/business/persistence/models/base_model.py:18-23 | applying the same update twice at the same time equals applying it once |
| PersistenceModels.Serialized | part2/business/persistence/models/base_model.py:11-16 | `to_dict` raises `AttributeError` exactly when a timestamp is missing, `created_at` first; otherwise it copies every attribute |
| PersistenceModels.RunAssignments | part2/business/persistence/models/base_model.py:7-9 | attribute assignments pass exactly when every target name is bound; otherwise they raise `NameError` for an unbound name |
| PersistenceModels.ClassBodyRaises | part2/business/persistence/models/base_model.py:4-9 | the three assignments at class level raise `NameError` on `self`; inside the method they run |
| PersistenceModels.AsWrittenNeverSerializes | part2/business/persistence/models/base_model.py:5-16 | an object from the initializer as written never serializes, whatever updates follow |
| PersistenceModels.NoCreationTimeAfterUpdates | part2/business/persistence/models/base_model.py:20-23 | updates never supply a missing `created_at` |
| PersistenceModels.CorrectedAlwaysSerializes | part2/business/persistence/models/base_model.py:5-23 | an object with both timestamps and an id serializes after any update sequence, with its id and creation time unchanged |
| PersistenceModels.PersistentModel.AsWritten | part2/business/persistence/models/base_model.py:5-6 | the initializer's body sets no attribute |
| PersistenceModels.PersistentModel.constructor | part2/business/persistence/models/base_model.py:5-9 | the intended initializer sets exactly the id and both timestamps, and the object serializes |
| PersistenceModels.PersistentModel.Update | part2/business/persistence/models/base_model.py:18-23 | the attributes become `Updated` of the old ones |
| BusinessRepositories.InMemoryRepository.constructor | part2/business/persistence/repositories/in_memory_repository.py:4-6 | an empty store |
| BusinessRepositories.InMemoryRepository.All | part2/business/persistence/repositories/in_memory_repository.py:8-10 | one object per stored id, in insertion order |
| BusinessRepositories.InMemoryRepository.Get | part2/business/persistence/repositories/in_memory_repository.py:12-14 | the stored object, or None exactly when the id is unknown |
| BusinessRepositories.InMemoryRepository.Save | part2/business/persistence/repositories/in_memory_repository.py:16-19 | an object without an id raises and changes nothing; otherwise it is stored under its id and returned |
| BusinessRepositories.InMemoryRepository.Delete | part2/business/persistence/repositories/in_memory_repository.py:21-24 | the id is removed when present; nothing else changes |
| BusinessRepositories.SaveNewModels | part2/business/persistence/repositories/in_memory_repository.py:16-19 | an object from the initializer as written cannot be saved; a corrected one is saved and found again by its id |
| Repositories.FirstMatch | part3/app/persistence/repository.py:62-63 | the generator's position: every earlier row has the attribute and differs; the row found matches; a missing attribute before any match raises `AttributeError` |
| Repositories.FirstMatchTotal | part3/app/persistence/repository.py:62-63 | when every row has the attribute the scan cannot fail, and it finds nothing exactly when no row matches |
| Repositories.InMemoryRepository.constructor | part3/app/persistence/repository.py:41-42 | an empty store |
| Repositories.InMemoryRepository.Add | part3/app/persistence/repository.py:44-45 | an object without an id raises and changes nothing; otherwise it is stored under its id |
| Repositories.InMemoryRepository.Get | part3/app/persistence/repository.py:47-48 | the stored object, or None exactly when the id is unknown |
| Repositories.InMemoryRepository.GetAll | part3/app/persistence/repository.py:50-51 | one object per stored id, in insertion order |
| Repositories.InMemoryRepository.Update | part3/app/persistence/repository.py:53-56 | a stored object becomes `Updated`; an unknown id changes nothing |
| Repositories.InMemoryRepository.Delete | part3/app/persistence/repository.py:58-60 | the id is removed when present; nothing else changes |
| Repositories.InMemoryRepository.GetByAttribute | part3/app/persistence/repository.py:62-63 | the first stored object, in insertion order, whose attribute equals the value, every earlier one having the attribute and differing; None only when every object has the attribute and none matches; `AttributeError` only for a missing attribute |
| Repositories.FirstWhere | part3/app/persistence/repository.py:152-154 | the position of the first row whose column equals the value; every earlier row differs |
| Repositories.AllWhere | part3/app/persistence/repository.py:152-153 | `filter(column == value)`: a row is kept exactly when it is stored and its column equals the value |
| Repositories.FirstWhereIsFirstOfAll | part3/app/persistence/repository.py:152-154 | `.first()` is the head of the `.all()` that the same filter gives, or None when none matches |
| Repositories.FirstDropsSecondMatch | part3/app/persistence/repository.py:152-154 | with two reviews of one place, `.first()` returns one of them while the filter matches both |
| Repositories.SqlRepository.constructor | part3/app/persistence/repository.py:71-77 | a repository for the given model attributes, with no rows |
| Repositories.SqlRepository.Add | part3/app/persistence/repository.py:79-87 | an object without an id raises; a taken primary key fails the commit; both change nothing; otherwise the row is stored and returned |
| Repositories.SqlRepository.Get | part3/app/persistence/repository.py:89-98 | the row, or None exactly when the key is unknown |
| Repositories.SqlRepository.GetAll | part3/app/persistence/repository.py:100-106 | one row per stored key |
| Repositories.SqlRepository.Update | part3/app/persistence/repository.py:108-124 | None for an unknown key; otherwise each sent key the object has as an attribute is set, and nothing else changes |
| Repositories.SqlRepository.Delete | part3/app/persistence/repository.py:126-140 | True exactly when the row existed; it is gone afterwards |
| Repositories.SqlRepository.GetByAttribute | part3/app/persistence/repository.py:142-154 | raises exactly for a name that is not a model attribute; otherwise gives the first row whose column equals the value, or None when none does |
| Repositories.SqlUpdateIdempotent | part3/app/persistence/repository.py:120-122 | the `setattr` update is idempotent |
| RepositoryFacade.PlaceCallBinding | part3/app/models/place.py:21 | binding keyword arguments to `Place.__init__` fails exactly when `title` or `owner` is missing, `title` first |
| RepositoryFacade.CreatePlaceCallMissesOwner | part3/app/services/facade.py:143-150 | `create_place`'s call passes `owner_id`, which `**kwargs` absorbs, so `owner` is missing |
| RepositoryFacade.PutKeepsWithin | part3/app/persistence/repository.py:120-122 | storing a row made of model attributes, or a `setattr` update of one, keeps every row within the model attributes |
| RepositoryFacade.UserRow | part3/app/services/facade.py:29-36 | the new user row: exactly the `User` attributes, the sent names and email, `is_admin` (False by default), no reviews and one clock reading as both timestamps |
| RepositoryFacade.AmenityRow | part3/app/services/facade.py:54-55 | the new amenity row: exactly the `Amenity` attributes, the name and no places |
| RepositoryFacade.NewPlaceRow | part3/app/services/facade.py:143-160 | the intended new place: exactly the `Place` attributes, the sent title and description, numbers that `Place` accepts, the sent owner, the found amenities and no reviews |
| RepositoryFacade.ReviewRow | part3/app/services/facade.py:258-263 | the new review row: exactly the review attributes from the normalised payload, with the code's defaults |
| RepositoryFacade.FoundIdsKeepsRepeats | part3/app/services/facade.py:155-158 | appending is not deduplication: when every id is stored the list is the ids as sent, repeats included |
| RepositoryFacade.SetterDataIsWhatSettersStore | part3/app/models/place.py:83-118 | for sent numbers that pass the guards, what the `setattr` write stores is what the setters store |
| RepositoryFacade.OwnerSetter | part3/app/models/place.py:72-76 | `setattr(place, 'owner', v)` with a payload value: a falsy one is "Place must have an owner", a truthy one is the `TypeError`; no sent owner passes |
| RepositoryFacade.PlaceUpdateCheck | part3/app/services/facade.py:185-215 | `update_place` raises in the order number guards, unknown owner, non-iterable amenities, then the owner setter; passes exactly when none applies |
| RepositoryFacade.UpdatedPlace | part3/app/services/facade.py:201-215 | the updated place: the resolved amenity list when one was sent; each sent attribute stored as its setter stores it; everything else kept |
| RepositoryFacade.UpdateIgnoresOwnerId | part3/app/services/facade.py:195-215 | `owner_id` is not a `Place` attribute, so a new owner id passes the check but the owner is not changed |
| RepositoryFacade.Facade.constructor | part3/app/services/facade.py:10-15 | four fresh, distinct, empty repositories over the four model classes |
| RepositoryFacade.Facade.GetUsers | part3/app/services/facade.py:18-22 | no `User` row has an `is_test_user` attribute, so the filter returns every stored user |
| RepositoryFacade.Facade.GetUser | part3/app/services/facade.py:24-25 | the stored user, or None exactly when the id is unknown |
| RepositoryFacade.Facade.CreateUser | part3/app/services/facade.py:27-36 | the user checks' error; a taken id fails the commit; otherwise `UserRow` is stored and returned |
| RepositoryFacade.Facade.UpdateUser | part3/app/services/facade.py:38-39 | None for an unknown id; otherwise a `setattr` update with no validation, so a sent first name is stored as it is |
| RepositoryFacade.Facade.CreateAmenity | part3/app/services/facade.py:42-55 | the facade guard, then `Amenity`'s name check, then `AmenityRow` is stored; each failure changes nothing |
| RepositoryFacade.Facade.GetAmenity | part3/app/services/facade.py:57-72 | the stored amenity, or "Amenity not found" exactly when it is unknown |
| RepositoryFacade.Facade.GetAllAmenities | part3/app/services/facade.py:74-80 | an amenity is listed exactly when it is stored |
| RepositoryFacade.Facade.UpdateAmenity | part3/app/services/facade.py:82-99 | the name guard raises first; then None for an unknown id; otherwise a `setattr` update of the stored row |
| RepositoryFacade.Facade.CreatePlaceAsWritten | part3/app/services/facade.py:101-164 | as written, `create_place` always fails: with the payload check's error, or else "Failed to create place" wrapping the missing `owner` argument |
| RepositoryFacade.Facade.ResolveAmenityIds | part3/app/services/facade.py:155-158 | the loop keeps the ids with a stored amenity, in order |
| RepositoryFacade.Facade.SentAmenities | part3/app/services/facade.py:202-210 | the amenity list `update_place` writes: none when no list is sent; otherwise the found ids of the iterated value |
| RepositoryFacade.Facade.CreatePlace | part3/app/services/facade.py:101-164 | corrected `create_place`: the check's error; a non-iterable amenity list or a taken id becomes "Failed to create place"; otherwise `NewPlaceRow` is stored with a known owner and numbers `Place` accepts |
| RepositoryFacade.Facade.AddPlace | part3/app/services/facade.py:160-164 | the repository `add` inside the `try`: a taken key is rewrapped as "Failed to create place" and changes nothing |
| RepositoryFacade.Facade.GetPlace | part3/app/services/facade.py:166-168 | the stored place, or None exactly when it is unknown |
| RepositoryFacade.Facade.GetAllPlaces | part3/app/services/facade.py:170-176 | a place is listed exactly when it is stored |
| RepositoryFacade.Facade.UpdatePlace | part3/app/services/facade.py:178-215 | None for an unknown place; a failed `PlaceUpdateCheck` changes nothing and returns its error; otherwise the place becomes `UpdatedPlace` |
| RepositoryFacade.Facade.WritePlace | part3/app/services/facade.py:204-215 | the two writes together store `UpdatedPlace` and change no other row |
| RepositoryFacade.Facade.SetAttributes | part3/app/persistence/repository.py:118-124 | on a stored place, the `setattr` loop stores `Overwritten` over the row's and the model's attributes |
| RepositoryFacade.Facade.DeletePlace | part3/app/services/facade.py:217-219 | True exactly when the place existed; only it is removed |
| RepositoryFacade.Facade.CreateReview | part3/app/services/facade.py:221-265 | `ReviewPayloadCheck`'s error with no change; otherwise `ReviewRow` of the normalised payload with the stored user, the stored place and the sent text |
| RepositoryFacade.Facade.GetReview | part3/app/services/facade.py:267-276 | the stored review, or None exactly when it is unknown |
| RepositoryFacade.Facade.GetAllReviews | part3/app/services/facade.py:278-284 | a review is listed exactly when it is stored |
| RepositoryFacade.Facade.GetReviewsByPlaceAsWritten | part3/app/services/facade.py:286-304 | as written: an unknown place raises; otherwise only the first review of the place, the head of `AllWhere`, or None |
| RepositoryFacade.Facade.GetReviewsByPlace | part3/app/services/facade.py:286-304 | corrected: an unknown place raises; otherwise a review is listed exactly when it is stored and names the place |
| RepositoryFacade.Facade.UpdateReview | part3/app/services/facade.py:306-345 | None for an unknown review; `ReviewUpdateCheck` against the stored ids fails with no change; otherwise a `setattr` update with the normalised payload |
| RepositoryFacade.Facade.DeleteReview | part3/app/services/facade.py:347-356 | True exactly when the review existed; only it is removed |

## Left out

- `uuid4()` and `datetime.now()`/`utcnow()` are parameters (`newId`, `now`), and timestamps are opaque strings. `isoformat()` is the identity on them, and two clock readings are equal only when the caller passes equal values.
- `Values.Equal` compares numbers by value but lists and dicts structurally: `[1] == [1.0]` and `{"a": 1} == {"a": True}` are True in Python and false in the model. This matters only where a caller sends a list or a dict as an id or as the value `get_by_attribute` compares against.
- `PlaceViews.WithDefaults` and `PlaceViews.FullSummary` give one `now` to several `datetime.now()` defaults, where Python reads the clock once per default. The facades' own writes always set `created_at` and `updated_at`, so these defaults apply only to a record stored without them.
- Python floats are exact reals (`real`). Rounding, `inf` and `nan` are not modelled.
- `float(s)` and `int(s)` on a numeric string raise in the model, as for any non-number (`Numeric`/`ToInt` accept only bool, int and float). The facades' `float(data['price'])` therefore refuses `"5"`, which Python accepts.
- The kinds of error are kept (`Errors.Error`), but not their message texts or exception classes, except where two kinds are told apart. `float()`'s `ValueError` and a comparison's `TypeError` are both `NotANumber`.
- A payload whose key is a Python object other than a string is not modelled (records are `map<string, Value>`). An unhashable or non-string id looked up in a table is simply absent. `1`, `1.0` and `True` are not merged as dict keys.
- Iterating over a dict payload (`for x in {...}`) is treated as not iterable. Only lists and strings are iterated.
- Mutating the caller's payload (`review_data['rating'] = rating`, `del place_data['amenities']`) is modelled as a new record. The caller does not see the change.
- A database session's uncommitted state is not modelled. A raise before `commit` leaves the tables as they were, and `get` sees only committed rows.
- Repositories.SqlRepository.Update: a `setattr` on the primary key keeps the row stored under its old key.
- SQL rows come back in insertion order. The database's own ordering is not modelled.
- The `hasattr` filter of `SQLAlchemyRepository.update` is modelled against the mapped columns, relationships and the `price`, `latitude`, `longitude` and `owner` properties (`RepositoryFacade` attribute sets). The private backing attributes (`_owner`, `_price`, `_latitude`, `_longitude`), the methods and the dunder names are not in those sets, so an update key naming one of them is ignored by the model. Python's `hasattr` accepts these names, and `setattr` would then write them directly: `{"_price": -5}` would skip the price setter's check, and a key such as `to_dict` would replace a method.
- Regex `$` also matches before one trailing newline. `EmailMatches` does not accept that newline.
- part2 user.py is not part of this model. The part2 facade's `User(...)` uses part3 user.py's rules as a stand-in.
- part3 base_model.py is not part of this model, so the SQL rows' `id`, `created_at` and `updated_at` come from `RepositoryFacade.Stamp`.
- Repositories.InMemoryRepository.Update: the object's `update(data)` belongs to part3 base_model.py, which is not part of this model; the business layer's `BaseModel.update` (`PersistenceModels.Updated`: `id`, `created_at` and `updated_at` are skipped, then `updated_at` is refreshed) stands in for it.
- Models.User and Models.Place build on part2's `BaseModels.BaseModel` (an id and two equal timestamps), standing in for part3 base_model.py's `BaseModel`, whose columns and keyword handling are therefore not modelled.
- part3 amenity.py and review.py are not part of this model. part2 amenity.py's name check stands in for the part3 `Amenity`, and a plain record stands in for the part3 `Review`.
- The owner summary stored with a part2 place is not recomputed when the owner changes (`update_user` leaves it stale). The model does the same and does not claim otherwise.
- `get_place`'s (part2) loop over the amenities compares each amenity id with `place.get('amenity_id')` and does nothing either way (lines 351-374), so it is not modelled.
- part2 `get_all_places` returns `get_places()`, and part3 `get_places` is `get_all_places`. Each pair is one member (`GetPlaces`, `GetAllPlaces`).
- `Review.create_review` (part2/app/models/review.py:71-103) reads `self.users_db` on a `Review` and returns nothing. It is left out as unreachable code.
- The debug helpers, the `_create_test_users` seeding, `print` calls and `get_places`' catch-all `except` around the whole listing are not modelled. Only the listing itself is.
- InMemoryFacade.Facade.GetUsers: the test users are not created by the constructor, but a stored record that carries `is_test_user` is still filtered out.
- Concurrency, HTTP and the API layers are outside the core.

Where the code and its design description disagree, the model follows the code:

- the SQL `update` does not refresh `updated_at`;
- part2 `update_user` does not validate the new names;
- part2 `update_place` raises on a non-iterable amenity list after it has already written the record.

## Findings

| source | as written | input that shows it | evidently intended | confidence | as-written member | corrected member |
|---|---|---|---|---|---|---|
| part3/app/services/facade.py:143-150 | `Place(..., owner_id=owner_id)`, but `Place.__init__` (part3/app/models/place.py:21) requires `owner`, and `**kwargs` absorbs `owner_id`; the `TypeError` is rewrapped at lines 162-164 | any payload passing every check, e.g. title "Flat", an owner id of a stored user and no numbers: "Failed to create place: missing argument 'owner'" | pass the stored owner as `owner=owner` so the place is created | not executed | RepositoryFacade.Facade.CreatePlaceAsWritten | RepositoryFacade.Facade.CreatePlace |
| part2/business/persistence/models/base_model.py:5-9 | the three `self.…` assignments are indented at class level, under the `__init__` with only a docstring | defining the class raises `NameError` for `self`; taken alone, the `__init__` body sets no attribute, so `to_dict` raises `AttributeError` on `created_at` | indent the assignments into `__init__` | not executed | PersistenceModels.ClassBodyRaises | PersistenceModels.CorrectedAlwaysSerializes |
| part3/app/services/facade.py:299-304 | `get_reviews_by_place` returns `get_by_attribute('place_id', …)`, which is `.first()` (part3/app/persistence/repository.py:152-154) | two stored reviews of place "p": one review is returned, not a list of two | return every review of the place (`filter(...).all()`) | not executed | RepositoryFacade.Facade.GetReviewsByPlaceAsWritten | RepositoryFacade.Facade.GetReviewsByPlace |
