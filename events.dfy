/**
 * The part of an rrweb recording that the narrator reads. Only the fields the
 * narrator inspects are kept: the event type, an incremental snapshot's source
 * and mouse-interaction type, and a custom event's tag and payload. rrweb's
 * numeric enum values are abstracted into constructors; every event type,
 * incremental source and interaction type the narrator does not name falls
 * into a catch-all constructor.
 */
module Rrweb {
  import opened Wrappers

  /** rrweb's `MouseInteractions`: the seven types the narrator names, and the rest. */
  datatype MouseInteractions =
    | MouseUp
    | MouseDown
    | Click
    | ContextMenu
    | DblClick
    | TouchStart
    | TouchEnd
    | OtherInteraction  // Focus, Blur, TouchMove_Departed, TouchCancel, ...

  /** The `data` of an incremental snapshot, by its `source`. */
  datatype IncrementalData =
    | MouseInteraction(interaction: MouseInteractions)
    | OtherSource  // mutations, mouse moves, scrolls, inputs, ...

  /**
   * A custom event's payload. An entry of `componentStack` is `None` where the
   * recorder stored `null` or `undefined`.
   */
  datatype Payload = Payload(componentStack: seq<Option<string>>, url: string)

  /** One recorded event, by its `type`. */
  datatype Event =
    | IncrementalSnapshot(data: IncrementalData)
    | Custom(tag: string, payload: Payload)
    | OtherEvent  // DomContentLoaded, Load, FullSnapshot, Meta, Plugin
}
