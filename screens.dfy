/** The early returns the freelancer pages and the client directory share:
    while `loading` they render only a spinner (or a loading text), when
    `error` is truthy only the error box with its text, and their content
    otherwise. */
module Screens {

  datatype Screen<T> = Spinner | ErrorBox(message: string) | Content(view: T)
}
