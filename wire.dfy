/** The overlay metadata as it travels from the editor to the backend: one JSON
    object per overlay. A key JSON.stringify leaves out (an `undefined` field) is
    `None`; numbers are JSON numbers, modelled as exact reals. */
module Wire {
  import opened Wrappers

  datatype Meta = Meta(
    id: Option<string>,
    kind: Option<string>,      // the JSON key "type"
    content: Option<string>,
    x: Option<real>,
    y: Option<real>,
    start: Option<real>,
    end: Option<real>,
    color: Option<string>,
    fontSize: Option<real>,
    width: Option<real>,
    height: Option<real>)

  /** Python truthiness of an optional JSON number: present and non-zero. */
  predicate Truthy(v: Option<real>) {
    v.Some? && v.value != 0.0
  }

  predicate IsAssetKind(kind: string) {
    kind == "image" || kind == "video"
  }
}
