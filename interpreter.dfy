/** The skeleton of the stack machine: the operand `Stack` (a deque whose
    right end is the top) and the initial state of a `Machine`. */
module Interpreter {
  import opened StackSpec

  /** A LIFO stack over a deque. `elems` lists the elements from the left
      (bottom) end to the right (top) end. */
  class Stack<T> {
    var elems: seq<T>

    /** `Stack()`: an empty deque. */
    constructor ()
      ensures elems == []
    {
      elems := [];
    }

    /** `push`, an alias of `deque.append`: adds `v` at the top and keeps
        every earlier element where it was. */
    method Push(v: T)
      modifies this
      ensures elems == Append(old(elems), v)
      ensures |elems| == |old(elems)| + 1 && elems[|elems| - 1] == v
      ensures elems[..|old(elems)|] == old(elems)
    {
      elems := Append(elems, v);
    }

    /** `top`, that is `self[-1]`: the top element, without removing it;
        IndexError on an empty stack. It modifies nothing. */
    method Top() returns (r: Result<T>)
      ensures r == Subscript(elems, -1)
      ensures |elems| == 0 <==> r == Err(IndexError)
      ensures |elems| > 0 ==> r == Ok(elems[|elems| - 1])
    {
      r := Subscript(elems, -1);
    }

    /** `pop`, inherited from `deque`: removes and returns the top element;
        IndexError, with the stack left as it was, when it is empty. */
    method Pop() returns (r: Result<T>)
      modifies this
      ensures |old(elems)| == 0 ==> r == Err(IndexError) && elems == old(elems)
      ensures |old(elems)| > 0 ==> r.Ok? && old(elems) == Append(elems, r.value)
      ensures r.Ok? ==> r == old(Subscript(elems, -1))
    {
      match PopRight(elems)
      case Err(e) =>
        r := Err(e);
      case Ok((v, rest)) =>
        elems := rest;
        r := Ok(v);
    }
  }

  /** The machine state: a data stack, a return-address stack, an
      instruction pointer and the program `code`. */
  class Machine<T> {
    var dataStack: Stack<T>
    var returnAddrStack: Stack<T>
    var instructionPointer: int
    var code: seq<T>

    /** The two stacks are distinct objects. */
    predicate Valid()
      reads this
    {
      dataStack != returnAddrStack
    }

    /** `Machine(code)`: both stacks new and empty, the instruction pointer
        at 0 and `code` stored as given. */
    constructor (code: seq<T>)
      ensures Valid()
      ensures fresh(dataStack) && fresh(returnAddrStack)
      ensures dataStack.elems == [] && returnAddrStack.elems == []
      ensures instructionPointer == 0
      ensures this.code == code
    {
      dataStack := new Stack();
      returnAddrStack := new Stack();
      instructionPointer := 0;
      this.code := code;
    }
  }

  /** The stacks of a machine are separate: a push onto the data stack
      leaves the return-address stack, the instruction pointer and the code
      as they were. */
  method PushDataKeepsRest<T>(m: Machine<T>, v: T)
    requires m.Valid()
    modifies m.dataStack
    ensures m.Valid()
    ensures m.dataStack.elems == Append(old(m.dataStack.elems), v)
    ensures m.returnAddrStack.elems == old(m.returnAddrStack.elems)
    ensures m.instructionPointer == old(m.instructionPointer) && m.code == old(m.code)
  {
    m.dataStack.Push(v);
  }

  /** A freshly built machine, after one push onto its data stack, holds
      that value alone on the data stack while its return-address stack is
      still empty and its instruction pointer still 0. */
  method FreshMachinePush<T>(code: seq<T>, v: T)
    returns (data: seq<T>, addrs: seq<T>, ip: int, top: Result<T>)
    ensures data == [v] && addrs == [] && ip == 0 && top == Ok(v)
  {
    var m := new Machine(code);
    PushDataKeepsRest(m, v);
    top := m.dataStack.Top();
    data, addrs, ip := m.dataStack.elems, m.returnAddrStack.elems, m.instructionPointer;
  }
}
