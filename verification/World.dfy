/** What one call of the service or one check of the scanner can change. */
module WorldState {
  import Bus
  import Store

  datatype World = World(db: Store.Db, stream: Bus.Stream)
}
