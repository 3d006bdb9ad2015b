/** The configuration wrapper every graph is composed with: it drops the
    `configuration` prop, forwards the others, and hands the graph one
    `properties` object merged from three layers. */
module WithConfig {
  import opened Js

  type Properties = map<string, Value>

  const CONFIGURATION := "configuration"
  const PROPERTIES := "properties"
  const IS_CUSTOM_COLOR := "isCustomColor"
  const COLORS := "colors"

  /** A prop of the wrapped component: a forwarded value or the merged bag. */
  datatype Prop = Plain(v: Value) | Bag(properties: Properties)

  /** `{...defaultProperties, ...config, ...configuration.data, isCustomColor}`:
      every key takes its value from the highest layer that has it, and the
      `isCustomColor` flag, written last, says whether the caller's layer
      configures `colors`. */
  function MergeProperties(defaults: Properties, config: Properties, data: Properties): (p: Properties)
    ensures IS_CUSTOM_COLOR in p && p[IS_CUSTOM_COLOR] == Bool(COLORS in data)
    ensures forall k :: k != IS_CUSTOM_COLOR ==> (k in p <==> k in data || k in config || k in defaults)
    ensures forall k :: k in data && k != IS_CUSTOM_COLOR ==> p[k] == data[k]
    ensures forall k :: k in config && k !in data && k != IS_CUSTOM_COLOR ==> p[k] == config[k]
    ensures forall k :: k in defaults && k !in config && k !in data && k != IS_CUSTOM_COLOR ==> p[k] == defaults[k]
  {
    (defaults + config + data)[IS_CUSTOM_COLOR := Bool(COLORS in data)]
  }

  /** The props the wrapped graph receives. `configurationData` is
      `props.configuration.data` (an empty map when `data` is missing, which
      spreads and tests the same way; without `configuration` at all the
      source throws instead). A `properties` prop of the caller is overridden
      by the merged bag, since JSX applies the later attribute. */
  function Wrap(props: map<string, Value>, configurationData: Properties,
                config: Properties, defaults: Properties): (r: map<string, Prop>)
    ensures CONFIGURATION !in r
    ensures PROPERTIES in r && r[PROPERTIES] == Bag(MergeProperties(defaults, config, configurationData))
    ensures forall k :: k != CONFIGURATION && k != PROPERTIES ==>
              (k in r <==> k in props) && (k in props ==> r[k] == Plain(props[k]))
  {
    var rest := map k | k in props && k != CONFIGURATION :: Plain(props[k]);
    rest[PROPERTIES := Bag(MergeProperties(defaults, config, configurationData))]
  }
}
