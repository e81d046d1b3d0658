/** What the three creation modals share: their error maps and their date inputs. */
module Forms {

  /**
   * `if (errors[field]) setErrors(prev => ({ ...prev, [field]: '' }))`: a
   * non-empty message is blanked, the key stays, and every other entry is kept.
   */
  function ClearError<K>(errors: map<K, string>, field: K): (r: map<K, string>)
    ensures r.Keys == errors.Keys
    ensures field in r ==> r[field] == ""
    ensures forall f :: f in errors && f != field ==> r[f] == errors[f]
  {
    if field in errors && errors[field] != "" then errors[field := ""] else errors
  }

  /** A date field: empty, or a day number in the order `new Date(...)` compares days. */
  datatype DateInput = Blank | Day(day: int)
}
