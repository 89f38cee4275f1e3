/** The metadata store the decorators write and the loaders read: one map per
    metadata key, keyed by the class (and, for options and events, the
    property name) the declaration was attached to. */
module Declarations {
  import opened Types

  datatype Store = Store(
    commands: map<Class, CommandInformation>,              // "command" on a class
    subcommands: map<Class, SubcommandInformation>,        // "subcommand" on a class
    groups: map<Class, SubcommandGroupInformation>,        // "subcommandGroup" on a class
    options: map<(Class, string), OptionInfo>,             // "option" on a prototype property
    eventHandlers: set<Class>,                             // "eventHandler" on a class
    events: map<(Class, string), EventInformation>)        // "onEvent" on a prototype method
}
