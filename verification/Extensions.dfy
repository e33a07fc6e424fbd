/** The extensions that carry lock and load-link commands on a transaction, and the managers that know them. */
module Extensions {

  datatype LinkCmd = LoadLink | StoreConditional

  // valid: the extension counts; it stays on the transaction when it does not
  datatype LockExt = LockExt(lock: bool, id: int, valid: bool)

  datatype LinkExt = LinkExt(cmd: LinkCmd, valid: bool)

  const NEW_LOCK: LockExt := LockExt(false, 0, false)

  const NEW_LINK: LinkExt := LinkExt(LoadLink, false)

  datatype Manager = GpMm | LockMm | LoadLinkMm
}
