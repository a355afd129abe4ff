/** The few pieces of Python's runtime the scripts lean on: `None`-or-value
    results and the two built-in exceptions that the scripts can raise. */
module PyRuntime {

  datatype Option<+T> = None | Some(value: T)

  /** `IndexError`: `list[0]` or `list.pop(0)` on an empty list.
      `ValueError`: NumPy's `min`/`max` of an empty array. */
  datatype Exception = IndexError | ValueError

  /** How a script ends: it saves its figure (under the name `--out`
      bound, if any), stops at `quit()`, or dies of an exception. */
  datatype Exit = Saved(fname: Option<string>) | Stopped | Failed(e: Exception)
}
