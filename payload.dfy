/**
 * The JSON shapes exchanged between the board server and the browser:
 * a board `{id, name, sections}`, a section `{id, name, tasks}` and a task
 * `{id, text}`.
 */
module Payload {

  datatype TaskEntry = TaskEntry(id: nat, text: string)

  datatype SectionEntry = SectionEntry(id: nat, name: string, tasks: seq<TaskEntry>)

  datatype BoardEntry = BoardEntry(id: nat, name: string, sections: seq<SectionEntry>)
}
