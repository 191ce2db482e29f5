/**
 * The values the process-wide `serverStore` holds, as `ServerContainer`
 * uses them. The `Server` type itself is defined in ./stores/ServerStore,
 * which is not part of this model: its shape here (an entity map keyed by
 * id) is an assumption, and no member reads its fields. The reference
 * selector reads the store's own `entities` field (src/App.tsx:71), which
 * the model passes to it separately as a map of `Entity` values. Only
 * numeric property values are modelled.
 */
module ServerStore {

  datatype Entity = Entity(id: int, properties: map<string, real>)

  datatype Server = Server(entities: map<int, Entity>)
}
