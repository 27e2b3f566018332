/** The request-validation chain of comment/validators.py.

    A view that mixes in a validator first copies four request fields into its own
    attributes, then checks them against the content-type registry and the comment
    table, stopping at the first failure. The checks themselves are the pure
    functions `ContentTypeCheck`, `ParentCheck` and `Validation`; the class
    `ValidatorView` performs them step by step on its fields, as the mixins do, and
    is proved to agree with them. */
module Validators {
  import opened Collections
  import opened Text
  import opened Comments

  /** `status.HTTP_400_BAD_REQUEST`. */
  const BadRequest: int := 400

  /** `CommentErrorValidation.default_detail`. */
  const DefaultDetail: string := "Bad Request"

  /** The exception every failed check raises. */
  class CommentErrorValidation {
    var statusCode: int
    var detail: string

    /** An override replaces the 400 status only when it is truthy (present and
        not 0); a falsy detail (absent or empty) becomes "Bad Request". */
    constructor (detail: Option<string>, statusCode: Option<int>)
      ensures statusCode.Some? && statusCode.value != 0 ==> this.statusCode == statusCode.value
      ensures statusCode.None? || statusCode.value == 0 ==> this.statusCode == BadRequest
      ensures detail.Some? && detail.value != "" ==> this.detail == detail.value
      ensures detail.None? || detail.value == "" ==> this.detail == DefaultDetail
    {
      var status := BadRequest;
      if statusCode.Some? && statusCode.value != 0 {
        status := statusCode.value;
      }
      var d := detail;
      if d.None? || d.value == "" {
        d := Some(DefaultDetail);
      }
      this.statusCode := status;
      this.detail := d.value;
    }
  }

  // ---------------------------------------------------------------- requests

  /** The query-string parameters (`request.GET`) and the form data (`request.POST`). */
  datatype Request = Request(get: map<string, string>, post: map<string, string>)

  /** `QueryDict.get(key)`. */
  function Param(m: map<string, string>, key: string): Option<string>
  {
    if key in m then Some(m[key]) else None
  }

  /** Python truthiness of an optional string: present and non-empty. */
  predicate Truthy(v: Option<string>)
  {
    v.Some? && v.value != ""
  }

  /** `request.GET.get(key) or request.POST.get(key)`. */
  function FieldValue(req: Request, key: string): (v: Option<string>)
    ensures Truthy(Param(req.get, key)) ==> v == Some(req.get[key])
    ensures !Truthy(Param(req.get, key)) ==> v == Param(req.post, key)
    ensures Truthy(v) <==> Truthy(Param(req.get, key)) || Truthy(Param(req.post, key))
  {
    var g := Param(req.get, key);
    if Truthy(g) then g else Param(req.post, key)
  }

  /** The four attributes `BaseValidatorMixin.validate` assigns. */
  datatype Fields = Fields(
    appName: Option<string>,
    modelName: Option<string>,
    modelId: Option<string>,
    parentId: Option<string>)

  /** Each attribute is set (truthy) exactly when the query string or the form
      data carries a non-empty value for it. */
  function RequestFields(req: Request): (f: Fields)
    ensures Truthy(f.appName) <==> Truthy(Param(req.get, "app_name")) || Truthy(Param(req.post, "app_name"))
    ensures Truthy(f.modelName) <==> Truthy(Param(req.get, "model_name")) || Truthy(Param(req.post, "model_name"))
    ensures Truthy(f.modelId) <==> Truthy(Param(req.get, "model_id")) || Truthy(Param(req.post, "model_id"))
    ensures Truthy(f.parentId) <==> Truthy(Param(req.get, "parent_id")) || Truthy(Param(req.post, "parent_id"))
  {
    Fields(
      FieldValue(req, "app_name"),
      FieldValue(req, "model_name"),
      FieldValue(req, "model_id"),
      FieldValue(req, "parent_id"))
  }

  /** An empty `?model_id=` in the query string does not hide the form's value. */
  lemma EmptyQueryValueFallsThrough(req: Request, key: string)
    requires key in req.get && req.get[key] == ""
    ensures FieldValue(req, key) == Param(req.post, key)
  {
  }

  // ---------------------------------------------------------------- tables

  /** One row of the content-type registry: the app label, the lower-case model
      name, and the primary keys present in that model's table. */
  datatype ContentTypeRow = ContentTypeRow(appLabel: string, model: string, ids: set<int>)

  function AppLabelIs(app: string): ContentTypeRow -> bool
  {
    (row: ContentTypeRow) => row.appLabel == app
  }

  function ModelIs(name: string): ContentTypeRow -> bool
  {
    (row: ContentTypeRow) => row.model == name
  }

  /** `ContentType.objects.filter(app_label=app)`. */
  function AppMatches(reg: seq<ContentTypeRow>, app: string): seq<ContentTypeRow>
  {
    Filter(reg, AppLabelIs(app))
  }

  /** `ContentType.objects.filter(model=name)`: the app label is not compared. */
  function ModelMatches(reg: seq<ContentTypeRow>, name: string): seq<ContentTypeRow>
  {
    Filter(reg, ModelIs(name))
  }

  function AppLookup(reg: seq<ContentTypeRow>, app: string): (r: Lookup<ContentTypeRow>)
    ensures r.Found? <==> |AppMatches(reg, app)| == 1
    ensures r.DoesNotExist? <==> |AppMatches(reg, app)| == 0
  {
    Get(reg, AppLabelIs(app))
  }

  function ModelLookup(reg: seq<ContentTypeRow>, name: string): (r: Lookup<ContentTypeRow>)
    ensures r.Found? <==> |ModelMatches(reg, name)| == 1
    ensures r.DoesNotExist? <==> |ModelMatches(reg, name)| == 0
    ensures r.Found? ==> r.value.model == name && ModelMatches(reg, name) == [r.value]
  {
    var r := Get(reg, ModelIs(name));
    if r.Found? then
      var m := ModelMatches(reg, name);
      assert m[0] in m;
      r
    else r
  }

  /** The row `Comment.objects.get(id=pid, object_id=mid)` looks for: its content
      type is not compared, and an absent model id (`object_id=None`) matches no row. */
  predicate IsParentFor(c: Comment, pid: int, mid: Option<int>)
  {
    c.id == pid && mid == Some(c.objectId as int)
  }

  function ParentIs(pid: int, mid: Option<int>): Comment -> bool
  {
    (c: Comment) => IsParentFor(c, pid, mid)
  }

  /** `Comment.objects.get(id=pid, object_id=mid)`. */
  function ParentLookup(comments: seq<Comment>, pid: int, mid: Option<int>): (r: Lookup<Comment>)
    ensures r.DoesNotExist? <==> forall c :: c in comments ==> !IsParentFor(c, pid, mid)
    ensures r.Found? ==> r.value in comments && r.value.id == pid && mid == Some(r.value.objectId as int)
    ensures mid.None? ==> r.DoesNotExist?
  {
    Get(comments, ParentIs(pid, mid))
  }

  /** Comment ids are primary keys. */
  predicate UniqueIds(comments: seq<Comment>)
  {
    forall i, j :: 0 <= i < j < |comments| ==> comments[i].id != comments[j].id
  }

  // ---------------------------------------------------------------- outcomes

  datatype ErrorKind =
    | MissingModelName | MissingModelId | MissingAppName
    | InvalidAppName | InvalidModelName | InvalidModelId | ModelIdNotInteger
    | InvalidParent | ParentIdNotInteger

  predicate IsMissingField(k: ErrorKind)
  {
    k.MissingModelName? || k.MissingModelId? || k.MissingAppName?
  }

  /** What `validate` does: return, raise `CommentErrorValidation` with a detail,
      or let an exception the validators do not catch escape (`MultipleObjectsReturned`
      from a lookup that matched several rows). */
  datatype Outcome = Ok | Err(kind: ErrorKind, detail: string) | Uncaught

  const ModelNameRequired: string := "model name must be provided"
  const ModelIdRequired: string := "model id must be provided"
  const AppNameRequired: string := "app name must be provided"

  function InvalidAppMessage(app: string): string { app + " is NOT a valid app name" }
  function InvalidModelMessage(name: string): string { name + " is NOT a valid model name" }
  function InvalidModelIdMessage(id: string, name: string): string
  {
    id + " is NOT a valid model id for the model " + name
  }
  function ModelIdNotIntegerMessage(id: string): string { "model id must be an integer, " + id + " is NOT" }
  function InvalidParentMessage(pid: string): string
  {
    pid + " is NOT a valid id for a parent comment or the parent comment does NOT belong to the provided model object"
  }
  function ParentIdNotIntegerMessage(pid: string): string
  {
    "the parent id must be an integer, " + pid + " is NOT"
  }

  /** The three fields `ContentTypeValidator` demands are all present and non-empty. */
  predicate HasTargetFields(f: Fields)
  {
    Truthy(f.appName) && Truthy(f.modelName) && Truthy(f.modelId)
  }

  /** `ContentTypeValidator`'s checks on fields already read. */
  function ContentTypeCheck(f: Fields, reg: seq<ContentTypeRow>): (r: Outcome)
    ensures r.Err? && IsMissingField(r.kind) <==> !HasTargetFields(f)
    ensures r.Ok? ==>
      HasTargetFields(f) && ParsesAsInt(f.modelId.value) &&
      |AppMatches(reg, f.appName.value)| == 1 &&
      exists row :: row in reg && row.model == ToLower(f.modelName.value) && ParseInt(f.modelId.value) in row.ids
    ensures r.Err? ==> r.detail != ""
  {
    if !Truthy(f.modelName) then Err(MissingModelName, ModelNameRequired)
    else if !Truthy(f.modelId) then Err(MissingModelId, ModelIdRequired)
    else if !Truthy(f.appName) then Err(MissingAppName, AppNameRequired)
    else
      var app, name, id := f.appName.value, f.modelName.value, f.modelId.value;
      match AppLookup(reg, app)
      case DoesNotExist => Err(InvalidAppName, InvalidAppMessage(app))
      case MultipleObjectsReturned => Uncaught
      case Found(_) =>
        match ModelLookup(reg, ToLower(name))
        case DoesNotExist => Err(InvalidModelName, InvalidModelMessage(name))
        case MultipleObjectsReturned => Uncaught
        case Found(ct) =>
          if !ParsesAsInt(id) then Err(ModelIdNotInteger, ModelIdNotIntegerMessage(id))
          else if ParseInt(id) !in ct.ids then Err(InvalidModelId, InvalidModelIdMessage(id, name))
          else Ok
  }

  /** A parent id is given: present, non-empty and not the sentinel "0". */
  predicate HasParent(f: Fields)
  {
    Truthy(f.parentId) && f.parentId.value != "0"
  }

  /** `ParentIdValidator`'s check on fields already read. Django converts both ids
      to integers before the lookup, so a model id that is not an integer raises the
      same `ValueError`, reported with the parent-id message. */
  function ParentCheck(f: Fields, comments: seq<Comment>): (r: Outcome)
    ensures !HasParent(f) ==> r.Ok?
    ensures r.Ok? && HasParent(f) ==>
      ParsesAsInt(f.parentId.value) && f.modelId.Some? && ParsesAsInt(f.modelId.value) &&
      exists c :: c in comments && c.id == ParseInt(f.parentId.value) && c.objectId == ParseInt(f.modelId.value)
    ensures r.Err? ==> r.detail != "" && (r.kind.InvalidParent? || r.kind.ParentIdNotInteger?)
  {
    if !HasParent(f) then Ok
    else
      var pid := f.parentId.value;
      if !ParsesAsInt(pid) || (f.modelId.Some? && !ParsesAsInt(f.modelId.value)) then
        Err(ParentIdNotInteger, ParentIdNotIntegerMessage(pid))
      else
        var mid := if f.modelId.Some? then Some(ParseInt(f.modelId.value)) else None;
        match ParentLookup(comments, ParseInt(pid), mid)
        case DoesNotExist => Err(InvalidParent, InvalidParentMessage(pid))
        case Found(_) => Ok
        case MultipleObjectsReturned => Uncaught
  }

  /** Which validator class a view mixes in. */
  datatype Chain = BaseOnly | ContentTypeOnly | ParentIdOnly | Mixin

  /** The outcome of `validate` for each class, on fields already read.
      `ValidatorMixin(ContentTypeValidator, ParentIdValidator)` resolves
      `ContentTypeValidator.validate`'s `super()` to `ParentIdValidator`, so the
      parent check runs first. */
  function Validation(chain: Chain, f: Fields, reg: seq<ContentTypeRow>, comments: seq<Comment>): (r: Outcome)
    ensures chain.Mixin? ==> (r.Ok? <==> ParentCheck(f, comments).Ok? && ContentTypeCheck(f, reg).Ok?)
    ensures chain.Mixin? && !ParentCheck(f, comments).Ok? ==> r == ParentCheck(f, comments)
    ensures chain.Mixin? && ParentCheck(f, comments).Ok? ==> r == ContentTypeCheck(f, reg)
    ensures chain.ContentTypeOnly? ==> r == ContentTypeCheck(f, reg)
    ensures chain.ParentIdOnly? ==> r == ParentCheck(f, comments)
    ensures chain.BaseOnly? ==> r.Ok?
  {
    match chain
    case BaseOnly => Ok
    case ContentTypeOnly => ContentTypeCheck(f, reg)
    case ParentIdOnly => ParentCheck(f, comments)
    case Mixin =>
      var p := ParentCheck(f, comments);
      if p.Ok? then ContentTypeCheck(f, reg) else p
  }

  /** What `dispatch` returns: the view's own response, the JSON error response,
      or an exception propagating. */
  datatype Response = Dispatched | JsonError(body: map<string, string>, status: int) | Raised

  function DispatchResponse(api: bool, outcome: Outcome): (resp: Response)
    ensures resp.Dispatched? <==> api || outcome.Ok?
    ensures resp.JsonError? <==> !api && outcome.Err?
    ensures resp.JsonError? ==>
      resp.status == BadRequest && resp.body == map["type" := "error", "detail" := outcome.detail]
  {
    if api then Dispatched
    else
      match outcome
      case Ok => Dispatched
      case Err(_, detail) => JsonError(map["type" := "error", "detail" := detail], 400)
      case Uncaught => Raised
  }

  // ---------------------------------------------------------------- the view

  /** A view with a validator mixed in. `chain` and `api` are its class
      attributes; the other fields are the instance attributes `validate` sets. */
  class ValidatorView {
    const chain: Chain
    const api: bool
    var appName: Option<string>
    var modelName: Option<string>
    var modelId: Option<string>
    var parentId: Option<string>
    var error: Option<string>

    constructor (chain: Chain, api: bool)
      ensures this.chain == chain && this.api == api
      ensures CurrentFields() == Fields(None, None, None, None) && error == None
    {
      this.chain := chain;
      this.api := api;
      appName, modelName, modelId, parentId := None, None, None, None;
      error := None;
    }

    function CurrentFields(): Fields
      reads this
    {
      Fields(appName, modelName, modelId, parentId)
    }

    /** `BaseValidatorMixin.validate`: copy the four request fields. */
    method ReadFields(req: Request)
      modifies this
      ensures CurrentFields() == RequestFields(req)
      ensures error == old(error)
    {
      appName := FieldValue(req, "app_name");
      modelName := FieldValue(req, "model_name");
      modelId := FieldValue(req, "model_id");
      parentId := FieldValue(req, "parent_id");
    }

    /** `self.error = message; raise CommentErrorValidation(self.error)`. */
    method Raise(kind: ErrorKind, message: string) returns (r: Outcome)
      requires message != ""
      modifies this`error
      ensures error == Some(message)
      ensures r == Err(kind, message)
    {
      error := Some(message);
      var exc := new CommentErrorValidation(error, None);
      r := Err(kind, exc.detail);
    }

    /** The body of `ContentTypeValidator.validate` after `super().validate`. */
    method CheckContentType(reg: seq<ContentTypeRow>) returns (r: Outcome)
      modifies this`error
      ensures r == ContentTypeCheck(CurrentFields(), reg)
      ensures r.Err? ==> error == Some(r.detail)
      ensures !r.Err? ==> error == old(error)
    {
      if !Truthy(modelName) {
        r := Raise(MissingModelName, ModelNameRequired);
        return;
      }
      if !Truthy(modelId) {
        r := Raise(MissingModelId, ModelIdRequired);
        return;
      }
      if !Truthy(appName) {
        r := Raise(MissingAppName, AppNameRequired);
        return;
      }
      var causeIsApp := true;
      var app := AppLookup(reg, appName.value);
      if app.MultipleObjectsReturned? {
        r := Uncaught;
        return;
      }
      if app.Found? {
        causeIsApp := false;
        var name := ToLower(modelName.value);
        var ct := ModelLookup(reg, name);
        if ct.MultipleObjectsReturned? {
          r := Uncaught;
          return;
        }
        if ct.Found? {
          if !ParsesAsInt(modelId.value) {
            // except ValueError
            r := Raise(ModelIdNotInteger, ModelIdNotIntegerMessage(modelId.value));
            return;
          }
          var count := if ParseInt(modelId.value) in ct.value.ids then 1 else 0;
          var found := count > 0;
          if !found && count != 1 {
            r := Raise(InvalidModelId, InvalidModelIdMessage(modelId.value, modelName.value));
            return;
          }
          r := Ok;
          return;
        }
      }
      // except ContentType.DoesNotExist
      if causeIsApp {
        r := Raise(InvalidAppName, InvalidAppMessage(appName.value));
      } else {
        r := Raise(InvalidModelName, InvalidModelMessage(modelName.value));
      }
    }

    /** The body of `ParentIdValidator.validate` after `super().validate`. */
    method CheckParent(comments: seq<Comment>) returns (r: Outcome)
      modifies this`error
      ensures r == ParentCheck(CurrentFields(), comments)
      ensures r.Err? ==> error == Some(r.detail)
      ensures !r.Err? ==> error == old(error)
    {
      if !Truthy(parentId) || parentId.value == "0" {
        r := Ok;
        return;
      }
      if !ParsesAsInt(parentId.value) || (modelId.Some? && !ParsesAsInt(modelId.value)) {
        // except ValueError
        r := Raise(ParentIdNotInteger, ParentIdNotIntegerMessage(parentId.value));
        return;
      }
      var mid := if modelId.Some? then Some(ParseInt(modelId.value)) else None;
      var parent := ParentLookup(comments, ParseInt(parentId.value), mid);
      if parent.DoesNotExist? {
        r := Raise(InvalidParent, InvalidParentMessage(parentId.value));
      } else if parent.MultipleObjectsReturned? {
        r := Uncaught;
      } else {
        r := Ok;
      }
    }

    /** `validate(request)` as the view's class resolves it. */
    method Validate(req: Request, reg: seq<ContentTypeRow>, comments: seq<Comment>) returns (r: Outcome)
      modifies this
      ensures CurrentFields() == RequestFields(req)
      ensures r == Validation(chain, RequestFields(req), reg, comments)
      ensures r.Err? ==> error == Some(r.detail)
      ensures !r.Err? ==> error == old(error)
    {
      ReadFields(req);
      match chain
      case BaseOnly =>
        r := Ok;
      case ContentTypeOnly =>
        r := CheckContentType(reg);
      case ParentIdOnly =>
        r := CheckParent(comments);
      case Mixin =>
        r := CheckParent(comments);
        if r.Ok? {
          r := CheckContentType(reg);
        }
    }

    /** `BaseValidatorMixin.dispatch`: API views skip validation here (the derived
        API class validates and lets the framework render the exception); other
        views answer a failed validation with a JSON error and status 400. */
    method Dispatch(req: Request, reg: seq<ContentTypeRow>, comments: seq<Comment>) returns (resp: Response)
      modifies this
      ensures resp == DispatchResponse(api, Validation(chain, RequestFields(req), reg, comments))
      ensures api ==> unchanged(this)
      ensures !api ==> CurrentFields() == RequestFields(req)
      ensures !api && Validation(chain, RequestFields(req), reg, comments).Err? ==>
        error == Some(Validation(chain, RequestFields(req), reg, comments).detail)
      ensures !api && !Validation(chain, RequestFields(req), reg, comments).Err? ==> error == old(error)
    {
      if api {
        resp := Dispatched;
        return;
      }
      var r := Validate(req, reg, comments);
      match r
      case Err(_, _) =>
        resp := JsonError(map["type" := "error", "detail" := error.value], 400);
      case Uncaught =>
        resp := Raised;
      case Ok =>
        resp := Dispatched;
    }
  }

  // ---------------------------------------------------------------- properties of ContentTypeCheck

  /** A missing `model_name` is reported before a missing `model_id`, and that
      before a missing `app_name`; while any of them is missing the registry is
      not consulted at all. */
  lemma MissingFieldsReportedInOrder(f: Fields, reg: seq<ContentTypeRow>, other: seq<ContentTypeRow>)
    ensures !Truthy(f.modelName) ==> ContentTypeCheck(f, reg) == Err(MissingModelName, ModelNameRequired)
    ensures Truthy(f.modelName) && !Truthy(f.modelId) ==>
      ContentTypeCheck(f, reg) == Err(MissingModelId, ModelIdRequired)
    ensures Truthy(f.modelName) && Truthy(f.modelId) && !Truthy(f.appName) ==>
      ContentTypeCheck(f, reg) == Err(MissingAppName, AppNameRequired)
    ensures !HasTargetFields(f) ==> ContentTypeCheck(f, reg) == ContentTypeCheck(f, other)
  {
  }

  /** An app label with no content type is "NOT a valid app name", whatever the
      model name and id are. */
  lemma UnknownAppName(f: Fields, reg: seq<ContentTypeRow>)
    requires HasTargetFields(f)
    requires forall row :: row in reg ==> row.appLabel != f.appName.value
    ensures ContentTypeCheck(f, reg) == Err(InvalidAppName, InvalidAppMessage(f.appName.value))
  {
  }

  /** A known app with a lower-cased model name that no content type has is
      "NOT a valid model name"; the message repeats the name as given. */
  lemma UnknownModelName(f: Fields, reg: seq<ContentTypeRow>)
    requires HasTargetFields(f)
    requires |AppMatches(reg, f.appName.value)| == 1
    requires forall row :: row in reg ==> row.model != ToLower(f.modelName.value)
    ensures ContentTypeCheck(f, reg) == Err(InvalidModelName, InvalidModelMessage(f.modelName.value))
  {
  }

  /** Once the app label resolves, the outcome no longer depends on it: the model
      is looked up by name alone, so it may belong to another app. */
  lemma ModelResolutionIgnoresAppName(f: Fields, g: Fields, reg: seq<ContentTypeRow>)
    requires HasTargetFields(f) && HasTargetFields(g)
    requires f.modelName == g.modelName && f.modelId == g.modelId
    requires |AppMatches(reg, f.appName.value)| == 1 && |AppMatches(reg, g.appName.value)| == 1
    ensures ContentTypeCheck(f, reg) == ContentTypeCheck(g, reg)
  {
  }

  /** For a resolved model, the id check fails with "not a valid model id" exactly
      when no instance has that id (`not exists() and count() != 1` is just
      `not exists()`), and a non-integer id is "must be an integer" instead. */
  lemma ModelIdDecision(f: Fields, reg: seq<ContentTypeRow>, ct: ContentTypeRow)
    requires HasTargetFields(f)
    requires |AppMatches(reg, f.appName.value)| == 1
    requires ModelMatches(reg, ToLower(f.modelName.value)) == [ct]
    ensures !ParsesAsInt(f.modelId.value) ==>
      ContentTypeCheck(f, reg) == Err(ModelIdNotInteger, ModelIdNotIntegerMessage(f.modelId.value))
    ensures ParsesAsInt(f.modelId.value) ==>
      (ContentTypeCheck(f, reg) == Ok <==> ParseInt(f.modelId.value) in ct.ids)
    ensures ParsesAsInt(f.modelId.value) ==>
      (ContentTypeCheck(f, reg) == Err(InvalidModelId, InvalidModelIdMessage(f.modelId.value, f.modelName.value))
       <==> ParseInt(f.modelId.value) !in ct.ids)
  {
    var name := ToLower(f.modelName.value);
    var l := ModelLookup(reg, name);
    assert l.Found?;
    assert l.value == ct;
  }

  /** An app label shared by several content types, or a model name shared by
      several apps, makes `ContentType.objects.get` raise an exception that no
      validator catches. */
  lemma DuplicateRegistryRowsEscape(f: Fields, reg: seq<ContentTypeRow>)
    requires HasTargetFields(f)
    ensures |AppMatches(reg, f.appName.value)| > 1 ==> ContentTypeCheck(f, reg) == Uncaught
    ensures |AppMatches(reg, f.appName.value)| == 1 && |ModelMatches(reg, ToLower(f.modelName.value))| > 1 ==>
      ContentTypeCheck(f, reg) == Uncaught
  {
  }

  // ---------------------------------------------------------------- properties of ParentCheck

  /** In a table keyed by id, `Comment.objects.get(id=pid, object_id=mid)` finds a
      row exactly when one exists and never finds several. */
  lemma ParentLookupInKeyedTable(comments: seq<Comment>, pid: int, mid: int)
    requires UniqueIds(comments)
    ensures !ParentLookup(comments, pid, Some(mid)).MultipleObjectsReturned?
    ensures ParentLookup(comments, pid, Some(mid)).DoesNotExist? <==>
      forall c :: c in comments ==> !(c.id == pid && c.objectId == mid)
  {
    var p := ParentIs(pid, Some(mid));
    assert forall c :: p(c) <==> c.id == pid && c.objectId == mid;
    assert forall i, j :: 0 <= i < j < |comments| ==> !(p(comments[i]) && p(comments[j]));
    FilterAtMostOne(comments, p);
  }

  /** Ids that parse, and a comment table keyed by id: the parent check succeeds
      exactly when some comment has that id and that object id, and otherwise
      reports the invalid parent. */
  lemma ParentFoundIff(f: Fields, comments: seq<Comment>)
    requires HasParent(f) && ParsesAsInt(f.parentId.value)
    requires f.modelId.Some? && ParsesAsInt(f.modelId.value)
    requires UniqueIds(comments)
    ensures ParentCheck(f, comments) == Ok <==>
      exists c :: c in comments && c.id == ParseInt(f.parentId.value) && c.objectId == ParseInt(f.modelId.value)
    ensures ParentCheck(f, comments) == Err(InvalidParent, InvalidParentMessage(f.parentId.value)) <==>
      !exists c :: c in comments && c.id == ParseInt(f.parentId.value) && c.objectId == ParseInt(f.modelId.value)
  {
    ParentLookupInKeyedTable(comments, ParseInt(f.parentId.value), ParseInt(f.modelId.value));
  }

  /** A parent id that is not an integer, or a model id that is not one, is
      reported as "the parent id must be an integer". */
  lemma ParentIdNotAnInteger(f: Fields, comments: seq<Comment>)
    requires HasParent(f)
    requires !ParsesAsInt(f.parentId.value) || (f.modelId.Some? && !ParsesAsInt(f.modelId.value))
    ensures ParentCheck(f, comments) == Err(ParentIdNotInteger, ParentIdNotIntegerMessage(f.parentId.value))
  {
  }

  /** Without a model id no comment can be the parent. */
  lemma ParentWithoutModelId(f: Fields, comments: seq<Comment>)
    requires HasParent(f) && ParsesAsInt(f.parentId.value) && f.modelId.None?
    ensures ParentCheck(f, comments) == Err(InvalidParent, InvalidParentMessage(f.parentId.value))
  {
  }

  /** The parent's content type is never compared: two comment tables that agree
      on every id and object id give the same outcome. */
  lemma ParentCheckIgnoresContentType(f: Fields, comments: seq<Comment>, retyped: seq<Comment>)
    requires |retyped| == |comments|
    requires forall i :: 0 <= i < |comments| ==>
      retyped[i].id == comments[i].id && retyped[i].objectId == comments[i].objectId
    ensures ParentCheck(f, comments) == ParentCheck(f, retyped)
  {
    if !HasParent(f) {
    } else if !ParsesAsInt(f.parentId.value) || (f.modelId.Some? && !ParsesAsInt(f.modelId.value)) {
      ParentIdNotAnInteger(f, comments);
      ParentIdNotAnInteger(f, retyped);
    } else if f.modelId.None? {
      ParentWithoutModelId(f, comments);
      ParentWithoutModelId(f, retyped);
    } else {
      SameParentLookup(comments, retyped, ParseInt(f.parentId.value), ParseInt(f.modelId.value));
    }
  }

  /** Tables that agree row by row on ids and object ids give parent lookups of
      the same kind; in a table keyed by id it never finds several rows. */
  lemma SameParentLookup(comments: seq<Comment>, retyped: seq<Comment>, pid: int, mid: int)
    requires |retyped| == |comments|
    requires forall i :: 0 <= i < |comments| ==>
      retyped[i].id == comments[i].id && retyped[i].objectId == comments[i].objectId
    ensures ParentLookup(comments, pid, Some(mid)).DoesNotExist? == ParentLookup(retyped, pid, Some(mid)).DoesNotExist?
    ensures ParentLookup(comments, pid, Some(mid)).MultipleObjectsReturned? ==
      ParentLookup(retyped, pid, Some(mid)).MultipleObjectsReturned?
    ensures UniqueIds(comments) ==> !ParentLookup(retyped, pid, Some(mid)).MultipleObjectsReturned?
  {
    var p := ParentIs(pid, Some(mid));
    FilterSameLength(comments, retyped, p);
    var a, b := Filter(comments, p), Filter(retyped, p);
    if |a| == 0 {
      assert forall c :: c in comments ==> !p(c);
    } else {
      assert a[0] in a;
    }
    if |b| == 0 {
      assert forall c :: c in retyped ==> !p(c);
    } else {
      assert b[0] in b;
    }
    if UniqueIds(comments) {
      ParentLookupInKeyedTable(comments, pid, mid);
    }
  }

  // ---------------------------------------------------------------- properties of the composed chain

  /** Without a parent the mixin's outcome is `ContentTypeValidator`'s. */
  lemma MixinWithoutParent(f: Fields, reg: seq<ContentTypeRow>, comments: seq<Comment>)
    requires !HasParent(f)
    ensures Validation(Mixin, f, reg, comments) == Validation(ContentTypeOnly, f, reg, comments)
  {
  }

  /** A failed parent check wins over every content-type check: a parent id with
      no comment of that id on that object is reported whatever the other fields
      are, even when `model_name` is missing, where `ContentTypeValidator` alone
      would report the missing name. */
  lemma MixinParentErrorWins(f: Fields, reg: seq<ContentTypeRow>, comments: seq<Comment>)
    requires HasParent(f) && ParsesAsInt(f.parentId.value)
    requires f.modelId.Some? ==> ParsesAsInt(f.modelId.value)
    requires f.modelId.Some? ==>
      !exists c :: c in comments && c.id == ParseInt(f.parentId.value) && c.objectId == ParseInt(f.modelId.value)
    ensures Validation(Mixin, f, reg, comments) == Err(InvalidParent, InvalidParentMessage(f.parentId.value))
    ensures !Truthy(f.modelName) ==>
      Validation(ContentTypeOnly, f, reg, comments) == Err(MissingModelName, ModelNameRequired)
  {
    NoMatchingParent(f, comments);
  }

  /** A parent id with no comment of that id on that object is invalid. */
  lemma NoMatchingParent(f: Fields, comments: seq<Comment>)
    requires HasParent(f) && ParsesAsInt(f.parentId.value)
    requires f.modelId.Some? ==> ParsesAsInt(f.modelId.value)
    requires f.modelId.Some? ==>
      !exists c :: c in comments && c.id == ParseInt(f.parentId.value) && c.objectId == ParseInt(f.modelId.value)
    ensures ParentCheck(f, comments) == Err(InvalidParent, InvalidParentMessage(f.parentId.value))
  {
    var pid := ParseInt(f.parentId.value);
    if f.modelId.Some? {
      var mid := ParseInt(f.modelId.value);
      assert forall c :: c in comments ==> !IsParentFor(c, pid, Some(mid));
      assert ParentLookup(comments, pid, Some(mid)).DoesNotExist?;
    } else {
      ParentWithoutModelId(f, comments);
    }
  }

  /** The literal ids and names of the scenario below, as Django reads them. */
  lemma ScenarioLiterals()
    ensures ToLower("Post") == "post"
    ensures ParsesAsInt("42") && ParseInt("42") == 42
    ensures ParsesAsInt("999") && ParseInt("999") == 999
  {
    assert ToLower("Post") == "post";
    ParseShowInt(42);
    assert ShowInt(42) == "42";
    ParseShowInt(999);
    assert ShowInt(999) == "999";
  }

  /** A blog post #42 exists, so the request for it passes ... */
  lemma RequestForExistingPost(blog: seq<ContentTypeRow>, comments: seq<Comment>)
    requires blog == [ContentTypeRow("blog", "post", {7, 42})]
    ensures Validation(Mixin, Fields(Some("blog"), Some("Post"), Some("42"), None), blog, comments) == Ok
  {
    ScenarioLiterals();
    var f := Fields(Some("blog"), Some("Post"), Some("42"), None);
    assert AppMatches(blog, "blog") == blog;
    assert ModelMatches(blog, "post") == blog;
    ModelIdDecision(f, blog, blog[0]);
  }

  /** ... while naming as its parent comment #999, which belongs to post #7, fails
      with the invalid-parent error. */
  lemma ParentOfAnotherPost(blog: seq<ContentTypeRow>, comments: seq<Comment>)
    requires comments == [Comment(999, "ann", None, 1, 7, "first", 0, 0)]
    ensures Validation(Mixin, Fields(Some("blog"), Some("Post"), Some("42"), Some("999")), blog, comments)
      == Err(InvalidParent, InvalidParentMessage("999"))
  {
    ScenarioLiterals();
    assert ParentLookup(comments, 999, Some(42)).DoesNotExist?;
  }
}
