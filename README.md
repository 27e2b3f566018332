# Comment app: comment store and request-validation chain

This project models the two components of a Django app for generic comments.

- **The comment store** (`comment/models.py`). A `Comment` row has an author, an optional parent comment, a generic foreign key to the commented object (`content_type`, `object_id`), a content, and the posting and last-edit timestamps. `CommentManager` offers three queries: `all_parent_comments`, `filter_by_object(obj)` and `all_comments(obj)`. The model's default ordering is newest first. A comment also has `replies` (oldest first), `is_edited` and `__str__`. The model has no in-place updates: every operation here is a function over the table of comments (module `Comments`), proved to return exactly the right rows, with their multiplicities, in the right order.
- **The validation chain** (`comment/validators.py`). A view mixes in a validator. Its `validate(request)` copies `app_name`, `model_name`, `model_id` and `parent_id` from the query string (or, when that value is absent or empty, from the form data) into instance attributes. It then checks them against the content-type registry and the comment table. The first failure sets `self.error` and raises `CommentErrorValidation`. `dispatch` turns that exception into a JSON error response with status 400, except in API views.
  - Module `Validators` has two layers. The pure decision functions are `ContentTypeCheck`, `ParentCheck`, `Validation` and `DispatchResponse`. The class `ValidatorView` has the same attributes and runs the checks step by step. Each of its methods is proved to agree with the decision functions. The properties are lemmas about the decision functions.
  - `ValidatorMixin(ContentTypeValidator, ParentIdValidator)` resolves `ContentTypeValidator.validate`'s `super()` to `ParentIdValidator.validate`. So the combined chain reads the fields, runs the parent check, and only then runs the content-type checks (`Validation(Mixin, …)`).

Helper modules: `Collections` holds `Option`, the `filter` behind every query and the single-row `get`: no row, one row, or `MultipleObjectsReturned`. `Text` holds ASCII lower-casing and the integer reading of an id string.

## Behaviour of the code worth knowing

- In the composed `ValidatorMixin` the parent check runs before every content-type check. A parent that matches no comment on the given object is reported even when the content-type checks would also fail (`Validation`, `MixinParentErrorWins`).
- The parent lookup `Comment.objects.get(id=…, object_id=…)` compares only the object id, not the content type. So a comment on another model's object with the same id is accepted as the parent (`ParentCheckIgnoresContentType`).
- The model lookup `ContentType.objects.get(model=…)` does not filter by app label. Once the app label resolves, the outcome does not depend on it (`ModelResolutionIgnoresAppName`).
- `ContentType.objects.get(app_label=…)` raises an uncaught `MultipleObjectsReturned` for any app with more than one content type. A model name shared by two apps does the same. The model keeps this as the outcome `Uncaught` (`DuplicateRegistryRowsEscape`). It is not treated as success.
- Django converts both ids to integers before the parent lookup. So when a parent is given, a non-integer `model_id` is reported with the message "the parent id must be an integer, <parent_id> is NOT" (`ParentIdNotAnInteger`). An absent `model_id` becomes `object_id=None`, which matches no row (`ParentWithoutModelId`).
- The model-id check `not exists() and count() != 1` is the same as `not exists()`. The method `ValidatorView.CheckContentType` keeps the double condition, and `ModelIdDecision` states the simple form.

## Model

| member | source | states |
|---|---|---|
| `Collections.Filter` | comment/models.py:8 | the filtered rows are exactly the input rows that satisfy the condition, each kept as often as it occurs |
| `Collections.Get` | comment/validators.py:66 | `objects.get`: no row iff none matches; a single row only when exactly one matches, and that row is the only match; `MultipleObjectsReturned` iff several match |
| `Collections.FilterAppend` | comment/models.py:8 | the filter keeps the rows in their stored order: filtering two stretches of rows one after the other is filtering them together |
| `Collections.FilterSameLength` | comment/validators.py:92 | two tables whose rows agree position by position on the condition keep the same number of rows |
| `Collections.FilterAtMostOne` | comment/validators.py:92 | when no two rows both match, the filter keeps at most one row |
| `Text.LowerChar` | comment/validators.py:68 | one character of `lower()`: capitals become their small letters (32 code points higher), other characters are unchanged |
| `Text.ToLower` | comment/validators.py:68 | `lower()` keeps the length, lowers each character and leaves no capital letter |
| `Text.ParsesAsInt` | comment/validators.py:70 | `int()` accepts the id (no `ValueError`): exactly when the string is non-empty, ends in a digit, has only digits after its first character, and starts with a digit or a sign |
| `Text.ParseInt` | comment/validators.py:70 | the integer read from an id string is non-positive when the string starts with '-' and non-negative otherwise |
| `Text.ParseShowInt` | comment/validators.py:81-83 | every integer's decimal rendering is accepted and reads back as the same integer |
| `Text.NoDigitsNoParse` | comment/validators.py:81-83 | a string without any digit is not an integer (gives `ValueError`) |
| `Comments.Insert` | comment/models.py:35-36 | inserting into a sorted list keeps it sorted and adds just that row |
| `Comments.OrderBy` | comment/models.py:35-36 | the ordering by `posted_date` is sorted in the requested direction and is a permutation of its input |
| `Comments.Query` | comment/models.py:35-36 | a manager query returns exactly the matching rows, with their multiplicities, in the requested order |
| `Comments.AllParentComments` | comment/models.py:7-8 | exactly the comments without a parent, each as often as stored, newest first |
| `Comments.FilterByObject` | comment/models.py:10-14 | exactly the comments with that content type, that object id and no parent, newest first |
| `Comments.AllComments` | comment/models.py:16-20 | exactly the comments with that content type and object id, replies included, newest first |
| `Comments.FilterByObjectWithinAllComments` | comment/models.py:10-20 | `filter_by_object(obj)` is a sub-multiset of `all_comments(obj)` |
| `Comments.FilterByObjectWithinAllParentComments` | comment/models.py:7-14 | `filter_by_object(obj)` is a sub-multiset of `all_parent_comments()` |
| `Comments.AllCommentsAreTopLevelOrReplies` | comment/models.py:10-20 | `all_comments(obj)` is `filter_by_object(obj)` plus exactly the replies on `obj` |
| `Comments.NewTopLevelCommentIsListed` | comment/models.py:10-20 | a stored top-level comment on `obj` is listed by both object queries |
| `Comments.Replies` | comment/models.py:44-46 | exactly the comments whose parent is this comment, each as often as stored, oldest first |
| `Comments.NewReplyIsListed` | comment/models.py:44-46 | a reply posted after every stored comment is listed, and listed last |
| `Comments.IsEdited` | comment/models.py:48-50 | `is_edited`: an edited comment was saved after it was posted |
| `Comments.IsEditedThreshold` | comment/models.py:48-50 | not edited when both timestamps are equal or exactly one second apart; edited iff the save lies more than one second after posting |
| `Comments.IsEditedMonotone` | comment/models.py:48-50 | a later save never clears `is_edited` |
| `Comments.Excerpt` | comment/models.py:39-42 | `content[:20]` is the prefix of length min(20, len(content)) |
| `Comments.Str` | comment/models.py:38-42 | starts with "comment by " iff there is no parent and with "reply by " iff there is one; ends with the user, ": " and the excerpt; its length is exactly that of those parts |
| `Validators.CommentErrorValidation.constructor` | comment/validators.py:11-20 | the status stays 400 unless a truthy override is given; a falsy detail becomes "Bad Request" |
| `Validators.FieldValue` | comment/validators.py:45-48 | the query-string value wins when it is non-empty; otherwise the form value (which may be absent) is taken; the result is non-empty iff one of the two is |
| `Validators.EmptyQueryValueFallsThrough` | comment/validators.py:45-48 | an empty query-string value falls through to the form value |
| `Validators.RequestFields` | comment/validators.py:45-48 | each of the four attributes is set exactly when the query string or the form data carries a non-empty value for it |
| `Validators.AppLookup` | comment/validators.py:66 | the app label resolves iff exactly one content type has it, and is unknown iff none has it |
| `Validators.ModelLookup` | comment/validators.py:68-69 | the lower-cased model name resolves iff exactly one content type has it, whatever its app |
| `Validators.ContentTypeCheck` | comment/validators.py:54-83 | a missing-field error iff one of the three fields is missing or empty; success only for an integer id of an existing instance of a content type with that name, under an app label that resolves; every error detail is non-empty |
| `Validators.ParentCheck` | comment/validators.py:89-101 | success whenever there is no parent (absent, empty or "0"); with a parent, success only if some comment has that id and that object id; it fails only with a parent error |
| `Validators.Validation` | comment/validators.py:44-105 | the mixin succeeds iff both the parent check and the content-type check succeed; a failing parent check is the mixin's outcome whatever the content-type check says, and once it passes the mixin reports the content-type check's outcome; `ContentTypeValidator` and `ParentIdValidator` alone report their own check's outcome; the base mixin always succeeds |
| `Validators.DispatchResponse` | comment/validators.py:31-42 | dispatched iff the view is an API view or validation succeeded; a JSON error `{type: error, detail}` with status 400 iff a non-API view failed validation |
| `Validators.MissingFieldsReportedInOrder` | comment/validators.py:54-62 | missing `model_name` is reported before missing `model_id`, and that before missing `app_name`; while any is missing the registry does not affect the outcome |
| `Validators.UnknownAppName` | comment/validators.py:64-77 | an app label that no content type has gives "NOT a valid app name" |
| `Validators.UnknownModelName` | comment/validators.py:64-80 | a resolved app with an unknown lower-cased model name gives "NOT a valid model name" |
| `Validators.ModelResolutionIgnoresAppName` | comment/validators.py:66-69 | once the app resolves, changing the app label does not change the outcome |
| `Validators.ModelIdDecision` | comment/validators.py:69-83 | for a resolved model: a non-integer id gives "must be an integer"; otherwise success iff an instance has that id, and "not a valid model id" iff none has |
| `Validators.DuplicateRegistryRowsEscape` | comment/validators.py:66-69 | several content types under one app label, or several with one model name, give an uncaught exception |
| `Validators.ParentLookup` | comment/validators.py:92 | `Comment.objects.get(id=…, object_id=…)`: no row iff no comment has that id and that object id; a found row has both; `object_id=None` finds nothing |
| `Validators.ParentLookupInKeyedTable` | comment/validators.py:92 | in a table keyed by id the parent lookup never finds several rows, and finds none iff no comment has that id and object id |
| `Validators.ParentFoundIff` | comment/validators.py:91-98 | with integer ids, the parent check succeeds iff some comment has that id and that object id, and reports the invalid parent otherwise |
| `Validators.ParentIdNotAnInteger` | comment/validators.py:99-101 | a non-integer parent id, or a non-integer model id, gives "the parent id must be an integer" |
| `Validators.ParentWithoutModelId` | comment/validators.py:92-98 | with no model id, every parent id that is an integer is invalid |
| `Validators.ParentCheckIgnoresContentType` | comment/validators.py:89-101 | two comment tables that agree row by row on ids and object ids give the same parent outcome, whatever their content types, whether or not ids are unique |
| `Validators.SameParentLookup` | comment/validators.py:92 | those two tables give the same kind of parent lookup result (none, one or several rows); with unique ids neither finds several |
| `Validators.MixinWithoutParent` | comment/validators.py:88-90 | without a parent, the mixin's outcome is `ContentTypeValidator`'s |
| `Validators.NoMatchingParent` | comment/validators.py:91-98 | a parent id with no comment of that id on that object, or with no model id, gives the invalid-parent error |
| `Validators.MixinParentErrorWins` | comment/validators.py:53-104 | a parent id with no comment of that id on that object (or with no model id) is the mixin's reported error whatever the other fields are; with `model_name` missing, `ContentTypeValidator` alone reports the missing name instead |
| `Validators.RequestForExistingPost` | comment/validators.py:51-83 | blog/Post/42 passes when post 42 exists |
| `Validators.ParentOfAnotherPost` | comment/validators.py:86-104 | naming as parent a comment that belongs to post 7 fails with the invalid-parent error |
| `Validators.ValidatorView.constructor` | comment/validators.py:23-29 | a new view has no fields read and no error |
| `Validators.ValidatorView.ReadFields` | comment/validators.py:44-48 | the four attributes become the request's field values; the error is untouched |
| `Validators.ValidatorView.Raise` | comment/validators.py:55-56 | sets `error` to the message and fails with that message as the exception's detail |
| `Validators.ValidatorView.CheckContentType` | comment/validators.py:54-83 | the step-by-step checks, with the `cause` variable and the literal double condition, compute `ContentTypeCheck`; `error` is set iff they fail with an error |
| `Validators.ValidatorView.CheckParent` | comment/validators.py:89-101 | the step-by-step parent check computes `ParentCheck`; `error` is set iff it fails with an error |
| `Validators.ValidatorView.Validate` | comment/validators.py:44-105 | `validate` leaves the request's fields in the attributes and returns `Validation` for the view's class |
| `Validators.ValidatorView.Dispatch` | comment/validators.py:31-42 | returns `DispatchResponse` of the validation outcome; an API view changes nothing; a non-API view reads the request's fields and sets `error` to the detail iff validation fails with an error, leaving it unchanged otherwise |

## Left out

- Django's ORM and the `ContentType` registry are replaced by plain tables. The registry is a sequence of rows (app label, lower-case model name, ids of the model's instances). The comment table is a sequence of `Comment` values.
- `ContentType.model_class()` returning `None` for a stale content type (which would raise an uncaught `AttributeError`) is not modelled: every registry row has its instance ids.
- `Text.ParsesAsInt`: Python's `int()` also accepts surrounding whitespace, `_` between digits and non-ASCII digits; the model accepts only an optional sign followed by ASCII digits.
- `Text.LowerChar`, `Text.ToLower`: `str.lower()` lower-cases all of Unicode; the model lowers ASCII capitals only and leaves every other character unchanged.
- Timestamps are integer microseconds instead of the floats `.timestamp()` returns, so `is_edited` is `posted + 1_000_000 < edited`.
- `auto_now`/`auto_now_add` assignment of the timestamps, `CASCADE` deletion and `GenericForeignKey` resolution of `content_object` are done by the framework and are not modelled. `ContentType.objects.get_for_model(obj.__class__)` becomes the `Target` pair given by the caller.
- `Comments.OrderBy`: the database leaves the order of comments with equal `posted_date` unspecified; the contracts say only "sorted and a permutation", not which tie order is chosen.
- `str(user)` inside `__str__` is an opaque string field of the comment.
- Translation (`gettext_lazy`) becomes plain strings. `JsonResponse`, the rendering of `APIException` and `super().dispatch` become the opaque `Response` values. In an API view, validation is left to the derived API class, which is not part of this model.
- Exceptions other than `CommentErrorValidation` that escape `validate` (`MultipleObjectsReturned`) are one outcome, `Uncaught`, without their message.
