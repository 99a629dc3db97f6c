/**
 * Entity storage as the filter plugins see it: a partial map from entity id
 * to entity. `load()` succeeds exactly for the ids in the map.
 */
module Entities {
  import opened Wrappers

  /** A loaded content entity: its type, id and (default-translation) label, `title`. */
  datatype Entity = Entity(entityType: string, id: string, title: string)

  /** The storage of one entity type. */
  type Storage = map<string, Entity>

  /** `$storage->load($id)`: the entity, or None (PHP's NULL) when there is none. */
  function Load(storage: Storage, id: string): Option<Entity> {
    if id in storage then Some(storage[id]) else None
  }
}
