/** The part of react-hook-form's `useForm` state the pages rely on: the
    current values and the default values. `reset(values)` replaces both;
    `reset()` goes back to the defaults. */
module HookForm {

  datatype Form<T> = Form(values: T, defaults: T) {
    /** `form.reset(v)`. */
    function ResetTo(v: T): Form<T>
    {
      Form(v, v)
    }

    /** `form.reset()`. */
    function Reset(): Form<T>
    {
      Form(defaults, defaults)
    }

    /** Writing a value through the inputs or `setValue`. */
    function SetValues(v: T): Form<T>
    {
      Form(v, defaults)
    }
  }

  /** `useForm({defaultValues: d})`. */
  function Init<T>(d: T): Form<T>
  {
    Form(d, d)
  }

  /** After `reset(v)`, a plain `reset()` comes back to `v`, not to the first defaults. */
  lemma ResetAfterResetTo<T>(f: Form<T>, v: T, edited: T)
    ensures f.ResetTo(v).SetValues(edited).Reset().values == v
  {
  }
}
