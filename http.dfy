/** The values the route modules exchange with the web framework: submitted form fields,
    the `FormError` body (app/utils/error.server.ts) and the three ways an action or a
    loader ends. */
module Http {
  import opened ResultServer
  import opened Db

  /** One entry of `Object.fromEntries(await request.formData())`: a string or an uploaded file. */
  datatype FormValue = Text(text: string) | Upload

  type FormData = map<string, FormValue>

  /** `FormError<T, U>`: the submitted fields, the schema's field errors when the payload did
      not parse, and a message when a later check refused it. */
  datatype FormError = FormError(fields: FormData, fieldErrors: bool, message: Option<string>)

  /** A `json(...)` body, a `redirect(...)` (returned or thrown), or a database error that
      escapes the handler. */
  datatype Response<+T> = Json(body: T) | Redirect(location: string) | Thrown(error: DbError)

  /** True when `fields[key]` is present and is a string. */
  predicate IsText(fields: FormData, key: string)
  {
    key in fields && fields[key].Text?
  }
}
