# AirBnB clone API handlers: a Dafny model

This project models the request handlers of the v1 REST API for the City,
Place, Review and User resources. Each handler is a small decision
procedure: it looks up a parent or the object itself, checks the JSON body
and its required keys in a fixed order, and then reads, adds, updates or
deletes one stored object.

The store is modelled as a value. For each kind (State, City, Place, Review,
User) it holds a table from id to the object's attributes, a map from
attribute name to JSON value (`Storage`). A request body is an
`Option<Record>`, where `None` means "not a JSON". A handler that can change
the store returns the response together with the store afterwards
(`Resource.Handled`). A read-only handler returns only the response.

The relationship accessors (a state's cities, a city's places, a place's
reviews) become filters on the foreign-key attribute (`Storage.Children`).

Each update handler loops over the body and calls `setattr`. That loop is
the method `Resource.ApplyBody`. It is proved against the declarative update
filter `Resource.Updated`:
- every body key outside the protected list is set to the body's value;
- every protected key, and every key absent from the body, is unchanged.

Beyond what each handler promises, the model proves a referential-integrity
invariant, `Storage.Linked`: every foreign key of every stored object names
a stored object. Every create and update handler preserves it. A delete
preserves it exactly when no stored object refers to the deleted one.

Modules: `Wrappers` (Option), `Storage` (store, lookups, the invariant and
its lemmas), `Resource` (responses, the update loop, object construction),
and one module per source file: `Places`, `Cities`, `Reviews`, `Users`.

Where the code differs from the usual description of this API, the model
follows the code:
- `update_place`, `update_city` and `update_user` call `storage.save()`,
  which does not restamp `updated_at`. `update_review` calls the review's own
  `save()`, which does. Only `Reviews.UpdateReview` sets `updated_at` to the
  save time `now`.
- `update_user` checks for a JSON body before it looks the user up.
- The Review handlers call `abort(404)` with no description. The other
  handlers give one, such as "City not found".

## Model

| member | source | states |
|---|---|---|
| `Resource.ApplyBody` | api/v1/views/places.py:100-104 | The loop over the body's items sets every key outside the protected list to the body's value. Protected keys and keys absent from the body keep their old values (`Updated`). |
| `Resource.UpdatedIsUnique` | api/v1/views/places.py:100-104 | The update filter determines the updated object completely, so the loop's result does not depend on the order it visits keys. |
| `Resource.UpdateIdempotent` | api/v1/views/places.py:100-104 | Applying the same body a second time changes nothing. |
| `Resource.Restamped` | api/v1/views/places_reviews.py:95-98 | Restamping `updated_at` on save commutes with the filtered update, because the body never sets `updated_at`. |
| `Resource.NewObject` | api/v1/views/places.py:80-82 | The constructed and saved object has the body's attributes, the fresh id and both timestamps. |
| `Places.GetPlacesByCity` | api/v1/views/places.py:16-25 | An unknown city gives 404 "City not found". Otherwise the reply is 200 with exactly the stored places whose `city_id` is that city, each with its stored attributes. |
| `Places.GetPlace` | api/v1/views/places.py:30-38 | An absent id gives 404 "Place not found". Otherwise the reply is 200 with that place. |
| `Places.DeletePlace` | api/v1/views/places.py:43-53 | An absent id gives 404 and the store is unchanged. Otherwise the place is removed, no other table changes, and the reply is 200 `{}`. |
| `Places.CreatePlace` | api/v1/views/places.py:58-83 | The checks run in this order: city missing 404, not JSON 400, no `user_id` 400, user not stored 404, no `name` 400. A refused request leaves the store unchanged. Success happens exactly when all checks pass. It gives 201 and stores one new place, whose `city_id` is the path id even if the body had another. Every other body key is copied. |
| `Places.UpdatePlace` | api/v1/views/places.py:88-107 | An absent id gives 404 before the JSON check, then 400 "Not a JSON". A refused request leaves the store unchanged. Success gives 200 and stores the place updated by the filter: `id`, `user_id`, `city_id`, `created_at` and `updated_at` never change. The store stays linked. |
| `Places.ProtectedKeepsLinks` | api/v1/views/places.py:100-104 | A filtered update keeps the place's city and owner, so a linked store stays linked. |
| `Places.UpdateKeepsListing` | api/v1/views/places.py:100-104 | A filtered update never moves a place to another city: every city lists the same place ids as before. |
| `Places.DeleteThenGet` | api/v1/views/places.py:34-53 | After a delete, getting the same id gives 404. |
| `Places.CreateThenGet` | api/v1/views/places.py:34-83 | After a successful create, getting the new id gives 200 with the object the create returned. |
| `Places.CreateThenList` | api/v1/views/places.py:20-83 | After a successful create, the path city lists exactly the new place beyond its old list (one entry more). Every other city's list is unchanged. |
| `Places.CreateKeepsLinks` | api/v1/views/places.py:62-82 | Create keeps a linked store linked, because the city and the user are both checked first. |
| `Places.DeleteKeepsLinks` | api/v1/views/places.py:47-52 | Delete keeps a linked store linked exactly when nothing refers to the place. |
| `Cities.GetCitiesByState` | api/v1/views/cities.py:13-22 | An unknown state gives 404 "State not found". Otherwise the reply is 200 with exactly the cities whose `state_id` is that state. |
| `Cities.GetCity` | api/v1/views/cities.py:27-35 | An absent id gives 404 "City not found". Otherwise the reply is 200 with that city. |
| `Cities.DeleteCity` | api/v1/views/cities.py:40-51 | An absent id gives 404 and the store is unchanged. Otherwise the city is removed, nothing else changes, and the reply is 200 `{}`. |
| `Cities.CreateCity` | api/v1/views/cities.py:56-75 | The checks run in this order: state missing 404, not JSON 400, no `name` 400. A refused request leaves the store unchanged. Success gives 201 and stores one new city. Its `state_id` is set after construction, so the path id wins over the body. Other body keys are copied. |
| `Cities.UpdateCity` | api/v1/views/cities.py:80-99 | 404 comes before "Not a JSON". A refused request leaves the store unchanged. Success gives 200 with the filtered update: `id`, `state_id`, `created_at` and `updated_at` are protected. The store stays linked. |
| `Cities.ProtectedKeepsLinks` | api/v1/views/cities.py:91-96 | A filtered update keeps the city's state, so a linked store stays linked. |
| `Cities.UpdateKeepsListing` | api/v1/views/cities.py:91-96 | A filtered update never moves a city to another state. |
| `Cities.DeleteThenGet` | api/v1/views/cities.py:31-51 | After a delete, getting the same id gives 404. |
| `Cities.CreateThenGet` | api/v1/views/cities.py:31-75 | After a successful create, getting the new id gives the created city. |
| `Cities.CreateThenList` | api/v1/views/cities.py:17-75 | After a successful create, the path state lists one more city, the new one. Every other state's list is unchanged. |
| `Cities.CreateKeepsLinks` | api/v1/views/cities.py:60-73 | Create keeps a linked store linked, because the state is checked first. |
| `Cities.DeleteKeepsLinks` | api/v1/views/cities.py:44-50 | Delete keeps a linked store linked exactly when no place lies in the city. |
| `Reviews.GetReviews` | api/v1/views/places_reviews.py:14-24 | An unknown place gives a bare 404. Otherwise the reply is exactly the reviews whose `place_id` is that place. |
| `Reviews.GetReview` | api/v1/views/places_reviews.py:28-37 | An absent id gives a bare 404. Otherwise the reply is 200 with that review. |
| `Reviews.DeleteReview` | api/v1/views/places_reviews.py:41-52 | An absent id gives 404 and the store is unchanged. Otherwise the review is removed and the reply is `{}` with the default 200. |
| `Reviews.CreateReview` | api/v1/views/places_reviews.py:56-79 | The checks run in this order: place missing 404, unreadable body 400 "Not a JSON", no `user_id` 400, user not stored 404, no `text` 400 "Missing text". A refused request leaves the store unchanged. Success gives 201 with `place_id` forced to the path id. |
| `Reviews.UpdateReview` | api/v1/views/places_reviews.py:83-99 | 404 comes before "Not a JSON". Success stores the review restamped by its own save and updated by the filter: `id`, `user_id`, `place_id` and `created_at` are never taken from the body. `updated_at` becomes the save time. The store stays linked. |
| `Reviews.ProtectedKeepsLinks` | api/v1/views/places_reviews.py:95-98 | The update keeps the review's place and author, so a linked store stays linked. |
| `Reviews.UpdateKeepsListing` | api/v1/views/places_reviews.py:95-98 | An update never moves a review to another place. |
| `Reviews.DeleteThenGet` | api/v1/views/places_reviews.py:34-52 | After a delete, getting the same id gives 404. |
| `Reviews.CreateThenGet` | api/v1/views/places_reviews.py:34-79 | After a successful create, getting the new id gives the created review. |
| `Reviews.CreateThenList` | api/v1/views/places_reviews.py:20-79 | After a successful create, the path place lists one more review, the new one. Every other place's list is unchanged. |
| `Reviews.CreateKeepsLinks` | api/v1/views/places_reviews.py:62-78 | Create keeps a linked store linked, because the place and the user are both checked. |
| `Reviews.DeleteKeepsLinks` | api/v1/views/places_reviews.py:47-51 | Deleting a review always keeps a linked store linked, because nothing refers to a review. |
| `Users.GetAllUsers` | api/v1/views/users.py:12-18 | The reply is 200 with one entry per stored user and nothing else. |
| `Users.GetUser` | api/v1/views/users.py:23-30 | An absent id gives 404 "User not found". Otherwise the reply is 200 with that user. |
| `Users.DeleteUser` | api/v1/views/users.py:35-46 | An absent id gives 404 and the store is unchanged. Otherwise the user is removed and the reply is 200 `{}`. |
| `Users.CreateUser` | api/v1/views/users.py:51-66 | The checks run in this order: not JSON 400, no `email` 400 "Missing email", no `password` 400 "Missing password". There is no existence check. A refused request leaves the store unchanged. Success gives 201 and stores one user carrying the body's attributes. |
| `Users.UpdateUser` | api/v1/views/users.py:71-89 | A non-JSON body gives 400 even for an unknown id. Only then does an absent id give 404. Success applies the filter with `id`, `email`, `created_at` and `updated_at` protected. The store stays linked. |
| `Users.UpdateSetsPasswordNotEmail` | api/v1/views/users.py:78-87 | An update stores a password sent in the body but never changes the email. |
| `Users.DeleteThenGet` | api/v1/views/users.py:27-46 | After a delete, getting the same id gives 404. |
| `Users.CreateThenGet` | api/v1/views/users.py:27-66 | After a successful create, getting the new id gives the created user. |
| `Users.CreateThenList` | api/v1/views/users.py:16-66 | After a successful create, the list of all users has exactly one more entry, the new user. |
| `Users.CreateKeepsLinks` | api/v1/views/users.py:63-64 | Creating a user keeps a linked store linked. |
| `Users.DeleteKeepsLinks` | api/v1/views/users.py:39-44 | Delete keeps a linked store linked exactly when the user owns no place and wrote no review. |

## Left out

- Places.GetPlacesByCity, Cities.GetCitiesByState, Reviews.GetReviews, Users.GetAllUsers: the JSON array is modelled as a map from id to object. Its contents and size are stated; its order (the store's iteration order) is not.
- Flask plumbing is not modelled: routing, `strict_slashes`, the API documentation decorators, and the serialisation done by `jsonify`, `make_response` and `to_dict`. A response is a status code with a body or an error description.
- api/v1/app.py is not part of this model. Its application-wide 404 handler replaces every 404 body with `{"error": "Not found"}`. The model keeps the description the handler passed to `abort`. CORS setup, storage teardown and process start-up are also out.
- Content-type detection is not modelled. `request.is_json` and `get_json(silent=True)` both become "the body is None or a JSON object". A malformed body that `get_json()` itself rejects is not modelled. Nor is a JSON body that is not an object, such as a list or `null`, on which `in` and `.items()` behave differently.
- The storage engine and the model classes are foreign code. Their id generation, timestamps and persistence are inputs: a fresh id (required to be unused) and a time value `now`.
- The model assumes the constructor sets `id`, `created_at` and `updated_at` itself, whatever the body holds. How the model classes treat such keys in the body is not visible here. The same goes for any transformation of attributes, such as hashing a user's password.
- An id taken from the body that is not a string is modelled as "not found". The storage engine's reaction to such a value is not part of this model.
- Cascading deletes done by a database backend are not modelled. The `DeleteKeepsLinks` lemmas state exactly when a delete leaves a dangling foreign key.
- Handlers in the source change the stored Python object and the global storage in place. The model returns a new record and a new store instead, so aliasing between live objects is not captured.
- A `setattr` that Python refuses (for example on `__class__`) is not modelled; such a request would end in an error rather than an update.
- `search_places` (api/v1/views/places.py:110-121) is cut off mid-statement, so it has no behaviour to model. The `status` and `stats` routes (api/v1/view/index.py) and the duplicate api/v1/views/index.py are not part of this model.
