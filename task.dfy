/** `Task`: one to-do item as the model class defines it. */
module Tasks {
  import opened Wrappers

  /** How string concatenation prints a possibly null title. */
  function TitleText(title: Option<string>): string {
    if title.Some? then title.value else "null"
  }

  /** `title + (completed ? " ✓" : "")`: the printed title, then two more
      characters, a space and a tick, exactly when the task is completed. */
  function TaskText(title: Option<string>, completed: bool): (text: string)
    ensures |text| == |TitleText(title)| + (if completed then 2 else 0)
    ensures text[..|TitleText(title)|] == TitleText(title)
    ensures completed ==> text[|text| - 2..] == " ✓"
  {
    var shown := TitleText(title);
    if completed then shown + " ✓" else shown
  }

  /** The label of an unfinished task is its title alone; finishing it only
      appends the tick. */
  lemma TaskTextParts(title: string)
    ensures TaskText(Some(title), false) == title
    ensures TaskText(Some(title), true) == TaskText(Some(title), false) + " ✓"
  {
  }

  class Task {
    var id: Option<string>
    var title: Option<string>
    var description: Option<string>
    var completed: bool
    var createdAt: Option<int>

    /** A new, unfinished task with the generated identifier `id`, created
        at `now`, without title or description. */
    constructor (id: string, now: int)
      ensures this.id == Some(id) && createdAt == Some(now) && !completed
      ensures title == None && description == None
    {
      this.id := Some(id);
      createdAt := Some(now);
      completed := false;
      title := None;
      description := None;
    }

    /** The two-argument constructor: as above, with both texts stored. */
    constructor WithText(id: string, now: int, title: Option<string>, description: Option<string>)
      ensures this.id == Some(id) && createdAt == Some(now) && !completed
      ensures this.title == title && this.description == description
    {
      this.id := Some(id);
      createdAt := Some(now);
      completed := false;
      this.title := title;
      this.description := description;
    }

    method SetTitle(title: Option<string>)
      modifies this
      ensures this.title == title
      ensures id == old(id) && description == old(description)
      ensures completed == old(completed) && createdAt == old(createdAt)
    {
      this.title := title;
    }

    method SetDescription(description: Option<string>)
      modifies this
      ensures this.description == description
      ensures id == old(id) && title == old(title)
      ensures completed == old(completed) && createdAt == old(createdAt)
    {
      this.description := description;
    }

    method SetCompleted(completed: bool)
      modifies this
      ensures this.completed == completed
      ensures id == old(id) && title == old(title)
      ensures description == old(description) && createdAt == old(createdAt)
    {
      this.completed := completed;
    }

    method SetId(id: Option<string>)
      modifies this
      ensures this.id == id
      ensures title == old(title) && description == old(description)
      ensures completed == old(completed) && createdAt == old(createdAt)
    {
      this.id := id;
    }

    method SetCreatedAt(createdAt: Option<int>)
      modifies this
      ensures this.createdAt == createdAt
      ensures id == old(id) && title == old(title)
      ensures description == old(description) && completed == old(completed)
    {
      this.createdAt := createdAt;
    }

    /** Flips the completion flag and nothing else. */
    method ToggleCompleted()
      modifies this
      ensures completed == !old(completed)
      ensures id == old(id) && title == old(title)
      ensures description == old(description) && createdAt == old(createdAt)
    {
      completed := !completed;
    }

    /** `toString`: the title, followed by " ✓" exactly when completed. */
    function ToString(): (text: string)
      reads this
      ensures |text| == |TitleText(title)| + (if completed then 2 else 0)
      ensures text[..|TitleText(title)|] == TitleText(title)
      ensures completed ==> text[|text| - 2..] == " ✓"
    {
      TaskText(title, completed)
    }
  }

  /** Toggling twice gives back the task as it was. */
  method ToggleTwice(t: Task)
    modifies t
    ensures t.completed == old(t.completed) && t.ToString() == old(t.ToString())
    ensures t.id == old(t.id) && t.title == old(t.title)
    ensures t.description == old(t.description) && t.createdAt == old(t.createdAt)
  {
    t.ToggleCompleted();
    t.ToggleCompleted();
  }
}
