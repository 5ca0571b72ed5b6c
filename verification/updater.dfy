/**
 * The values the background checker sends to the tray. They are declared in
 * updater.rs, which is not part of this model: only their shape is kept here.
 * The display text and the icon each status maps to are not modelled; the tray
 * receives them alongside the status.
 */
module Updater {

  /** One affected package: a summary line and the address of its advisory. */
  datatype Update = Update(text: string, link: string)

  /** The outcome of one completed check. */
  datatype Status =
    | UpToDate
    | MissingUpdates(updates: seq<Update>)
    | Error(message: string)
}
