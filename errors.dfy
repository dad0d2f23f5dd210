/** The exceptions the core raises, one constructor per kind of raise. Each
    comment gives the Python exception class and the gist of its message. */
module Errors {
  import opened Values

  datatype Error =
    // Failures of Python built-ins on ill-typed or missing data.
    | KeyMissing(key: string)        // KeyError from `data[key]`
    | NoStrip                        // AttributeError: a non-string has no `strip`
    | NoLen                          // TypeError: the value has no `len()`
    | NotANumber(field: string)      // ValueError/TypeError from `float(x)` or `x < 0`
    | NotIterable(field: string)     // TypeError from `for x in value`
    | AttributeMissing(name: string) // AttributeError from `getattr(obj, name)`
    | MissingArgument(param: string) // TypeError: a required parameter was not passed
    | DuplicateKey                   // IntegrityError on commit: the primary key is taken
    | NameNotDefined(name: string)   // NameError: the name is not bound in the running scope
    // User (user.py constructor)
    | FirstNameEmpty                 // "First name cannot be empty"
    | FirstNameTooLong               // "First name must be 50 characters or less"
    | LastNameEmpty                  // "Last name cannot be empty"
    | LastNameTooLong                // "Last name must be 50 characters or less"
    | EmailEmpty                     // "Email cannot be empty"
    | EmailInvalid                   // "Invalid email format"
    // Place (place.py validators and setters)
    | TitleEmpty                     // "Title cannot be empty"
    | TitleOver100                   // "Title must be 100 characters or less"
    | PlaceNeedsOwner                // "Place must have an owner"
    | OwnerNotUser                   // TypeError "Owner must be a User instance"
    | PriceNotNumber                 // "Price must be a number"
    | LatitudeNotNumber              // "Latitude must be a number"
    | LongitudeNotNumber             // "Longitude must be a number"
    | PriceNegative                  // "Price cannot be negative" (setter and facades)
    | LatitudeOutOfRange             // "Latitude must be between -90 and 90" (setter and facades)
    | LongitudeOutOfRange            // "Longitude must be between -180 and 180" (setter and facades)
    // Review (review.py validators)
    | ReviewContentEmpty             // "Review content cannot be empty"
    | RatingInvalid                  // "Rating must be an integer between 1 and 5" (model and facades)
    | ReviewNeedsPlace               // "Review must be associated with a place"
    | ReviewNeedsUser                // "Review must be associated with a user"
    // Amenity (amenity.py validator)
    | AmenityNameInvalid             // "Amenity name must be between 1 and 50 characters"
    // Facades
    | NameRequired                   // "Name is required"
    | AmenityNotFound                // "Amenity not found"
    | AmenityNameBlank               // "Name is required and cannot be empty"
    | TitleRequired                  // "Title is required"
    | TitleExceeds100                // "Title must not exceed 100 characters"
    | OwnerIdRequired                // "Owner ID is required"
    | OwnerNotFound(ownerId: Value)  // "Owner with ID ... does not exist"
    | PlaceCreationFailed(cause: Error) // "Failed to create place: ..." (rewrapped)
    | UserNotFound(userId: Value)    // "User with ID ... does not exist"
    | PlaceNotFound(placeId: Value)  // "Place with ID ... does not exist"
    | ReviewTextRequired             // "Review text is required"
    | UserIdImmutable                // "User ID cannot be changed in a review update"
    | PlaceIdImmutable               // "Place ID cannot be changed in a review update"
}
