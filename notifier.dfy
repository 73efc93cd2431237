/** The notifier factory (src/lib/notifier/index.ts). */
module Notifier {
  import opened Common

  /** The implementations in `impls`, in declaration order. */
  datatype NotifierKind = SesNotifierKind | EmailNotifierKind

  /** `availableNotifier`: the keys of `impls`, in declaration order. */
  const AVAILABLE_NOTIFIERS := ["ses", "email"]

  function KindName(kind: NotifierKind): string {
    match kind
    case SesNotifierKind => "ses"
    case EmailNotifierKind => "email"
  }

  /** `notifier.create(name)`: the implementation registered under the name, or
      the error thrown for any other name. */
  function Create(name: string): (r: Result<NotifierKind>)
    ensures r.Ok? <==> name in AVAILABLE_NOTIFIERS
    ensures r.Ok? ==> KindName(r.value) == name
    ensures r.Err? ==> r.message == "No implementation of notifier for " + name
  {
    if name == "ses" then Ok(SesNotifierKind)
    else if name == "email" then Ok(EmailNotifierKind)
    else Err("No implementation of notifier for " + name)
  }

  /** Every listed name creates its own implementation, and the list names each
      implementation once. */
  lemma AvailableNotifiersComplete(kind: NotifierKind)
    ensures KindName(kind) in AVAILABLE_NOTIFIERS
    ensures Create(KindName(kind)) == Ok(kind)
    ensures |AVAILABLE_NOTIFIERS| == 2 && AVAILABLE_NOTIFIERS[0] != AVAILABLE_NOTIFIERS[1]
  {
  }
}
