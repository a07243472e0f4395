/** The nomination form's record: one string per named input. */
module Form {

  /** Field values keyed by input name (`nominator_first`, `category`, `reason`, ...). */
  type FormData = map<string, string>

  /** The object spread `{ ...config, ...contact }` used to auto-fill the form:
      every key of either record, with the random contact's value winning on a
      key both carry. */
  function AutoFill(config: FormData, contact: FormData): (r: FormData)
    ensures r.Keys == config.Keys + contact.Keys
    ensures forall k :: k in contact ==> r[k] == contact[k]
    ensures forall k :: k in config && k !in contact ==> r[k] == config[k]
  {
    config + contact
  }

  /** `handleChange`: `{ ...formData, [name]: value }`. The named field takes the
      new value (it is added when absent); every other field keeps its value. */
  function HandleChange(form: FormData, name: string, value: string): (r: FormData)
    ensures name in r && r[name] == value
    ensures r.Keys == form.Keys + {name}
    ensures forall k :: k in form && k != name ==> r[k] == form[k]
  {
    form[name := value]
  }
}
