/** What one command invocation does, seen from outside: the lines it echoes and
    how it ends. */
module Cli {
  import opened Formatter

  datatype Line =
    | Out(text: string)     // click.echo(text)
    | ErrOut(text: string)  // click.echo(text, err=True)
    | Show(r: Rendered)     // click.echo(format_data_for_output(...))

  /** An exception raised inside a command's try block. */
  datatype Error =
    | ClickError(description: string, context: string, details: string)
      // the arguments given to create_click_exception
    | PythonError(kind: string)
      // a built-in exception, such as the AttributeError of `.get` on a non-dict

  datatype Run =
    | Done(lines: seq<Line>)              // the command returns normally
    | Exit(lines: seq<Line>, code: int)   // ctx.exit(code)
    | Raise(lines: seq<Line>, error: Error)
      // the exception reaches handle_zotero_exceptions_and_exit, which exits with status 1
}
