/**
  The pages of alambic_app/views.py that only echo a job or result id to
  their template: `pouring`, `chopping_ingredients` and `success`. Each
  accepts a GET with an `id` parameter and renders its template with the
  context {"token": id}; a GET without `id` and any other verb raise
  BadRequestError.
*/
module Pages {
  import opened Wrappers
  import opened Http

  /** A rendered template and the context it was given. */
  datatype Page = Page(template: string, context: map<string, string>)

  /** The shared shape of the three views: check the verb, require `id`, echo it as `token`. */
  function RenderWithId(req: Request, template: string, missing: string): Result<Page, ViewError>
  {
    if req.verb != GET then Err(BadRequest(INVALID_SERVER_REQUEST))
    else if "id" !in req.params then Err(BadRequest(missing))
    else Ok(Page(template, map["token" := req.params["id"]]))
  }

  /** The progress page for the upload task. */
  function Pouring(req: Request): (r: Result<Page, ViewError>)
    ensures r.Ok? <==> req.verb == GET && "id" in req.params
    ensures r.Ok? ==> r.value.template == "pouring.html"
                      && r.value.context.Keys == {"token"}
                      && r.value.context["token"] == req.params["id"]
    ensures req.verb != GET ==> r == Err(BadRequest(INVALID_SERVER_REQUEST))
    ensures req.verb == GET && "id" !in req.params ==> r == Err(BadRequest("Missing job id"))
  {
    RenderWithId(req, "pouring.html", "Missing job id")
  }

  /** The progress page for preprocessing and feature extraction. */
  function ChoppingIngredients(req: Request): (r: Result<Page, ViewError>)
    ensures r.Ok? <==> req.verb == GET && "id" in req.params
    ensures r.Ok? ==> r.value.template == "chopping.html"
                      && r.value.context.Keys == {"token"}
                      && r.value.context["token"] == req.params["id"]
    ensures req.verb != GET ==> r == Err(BadRequest(INVALID_SERVER_REQUEST))
    ensures req.verb == GET && "id" !in req.params ==> r == Err(BadRequest("Missing job id"))
  {
    RenderWithId(req, "chopping.html", "Missing job id")
  }

  /** The final page, from which the model and the results are downloaded. */
  function Success(req: Request): (r: Result<Page, ViewError>)
    ensures r.Ok? <==> req.verb == GET && "id" in req.params
    ensures r.Ok? ==> r.value.template == "spirit.html"
                      && r.value.context.Keys == {"token"}
                      && r.value.context["token"] == req.params["id"]
    ensures req.verb != GET ==> r == Err(BadRequest(INVALID_SERVER_REQUEST))
    ensures req.verb == GET && "id" !in req.params ==> r == Err(BadRequest("Missing result id"))
  {
    RenderWithId(req, "spirit.html", "Missing result id")
  }

  /**
    Only the verb and the `id` parameter matter: two requests that agree on
    them render the same page, whatever other parameters they carry.
  */
  lemma OnlyIdMatters(req1: Request, req2: Request)
    requires req1.verb == req2.verb
    requires ("id" in req1.params) == ("id" in req2.params)
    requires "id" in req1.params ==> req1.params["id"] == req2.params["id"]
    ensures Pouring(req1) == Pouring(req2)
    ensures ChoppingIngredients(req1) == ChoppingIngredients(req2)
    ensures Success(req1) == Success(req2)
  {
  }
}
