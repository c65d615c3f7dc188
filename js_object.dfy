/** What a property lookup on a JavaScript object literal finds besides its own keys. */
module JsObject {
  /**
   * The names every object literal inherits from `Object.prototype`. Looking
   * one of them up in an object that has no own key of that name yields a
   * function or an object, which is truthy.
   */
  const InheritedNames: set<string> := {
    "constructor", "hasOwnProperty", "isPrototypeOf", "propertyIsEnumerable",
    "toLocaleString", "toString", "valueOf", "__proto__",
    "__defineGetter__", "__defineSetter__", "__lookupGetter__", "__lookupSetter__"}
}
