# Simple stack interpreter: operand stack and machine state

This project models the skeleton of a small stack machine written in Python
(`interpreter.py`). The skeleton has two parts:

- `Stack`, a subclass of `collections.deque` used as a last-in-first-out
  operand stack. Its right end is the top. `push` is `deque.append`, `top`
  reads `self[-1]`, and `pop` is `deque.pop`, inherited unchanged.
- `Machine`, whose constructor sets up a data stack, a return-address stack,
  an instruction pointer of 0 and the program `code`.

Module `StackSpec` (`stack_spec.dfy`) gives the deque operations the stack
uses as functions on the sequence of elements, listed from the left end to the
right end:

- `Append` models `deque.append`.
- `Subscript` models `deque[i]`, negative indices included.
- `PopRight` models `deque.pop`.
- `AppendAll` and `PopMany` repeat a push or a pop, which lets the stack's
  last-in-first-out behaviour be stated as a lemma.

Module `Interpreter` (`interpreter.dfy`) holds the classes. `Stack<T>` keeps
its elements in a `seq<T>` field, and `Push` and `Pop` reassign that field in
place. `Machine<T>` has the four fields the source constructor assigns.

Where the source raises `IndexError`, the model returns `Err(IndexError)`.
This happens for `self[-1]` and for `deque.pop()` on an empty stack. The model
does not use a precondition here, so the empty-stack case stays part of each
operation's contract.

## Model

| member | source | states |
|---|---|---|
| `StackSpec.Append` | interpreter.py:10 | a push makes the stack exactly one element longer, puts `v` at the right end (the top) and keeps every earlier element in the same place and order |
| `StackSpec.Subscript` | interpreter.py:13 | deque indexing succeeds exactly when `-len <= i < len`; a non-negative index counts from the left, a negative one from the right (so `-1` is the top); any other index is an IndexError |
| `StackSpec.PopRight` | interpreter.py:9 | the inherited `pop` fails with IndexError exactly on an empty stack; otherwise pushing the popped value back onto the remainder gives the original stack |
| `StackSpec.AppendAll` | interpreter.py:10 | pushing several values one after another leaves the old contents followed by the pushed values, in the order they were pushed |
| `StackSpec.PopMany` | interpreter.py:9 | popping `n` times succeeds exactly when the stack holds at least `n` elements (underflow is never silent); the values come off from the top downwards and the bottom `len - n` elements remain |
| `StackSpec.TopIsWhatPopRemoves` | interpreter.py:9-13 | `top()` succeeds exactly when `pop()` does, and returns the element that `pop()` would remove |
| `StackSpec.TopAfterPush` | interpreter.py:10-13 | after `push(v)`, `top()` returns `v` |
| `StackSpec.PopAfterPush` | interpreter.py:9-10 | `pop()` right after `push(v)` returns `v` and restores the previous contents |
| `StackSpec.LastInFirstOut` | interpreter.py:9-10 | after pushing a sequence of values, popping as many times returns them in reverse order and leaves the stack as it was before the pushes |
| `Interpreter.Stack.constructor` | interpreter.py:9 | a new `Stack` is empty |
| `Interpreter.Stack.Push` | interpreter.py:10 | the new contents are the old contents with `v` appended at the top; the length grows by one and the earlier elements are unchanged |
| `Interpreter.Stack.Top` | interpreter.py:12-13 | returns `self[-1]`: the top element of a non-empty stack, IndexError on an empty one; it has no `modifies` clause, so the stack is left unchanged |
| `Interpreter.Stack.Pop` | interpreter.py:9 | on an empty stack: IndexError, contents unchanged; otherwise returns the element `top()` would have returned and removes it, leaving the rest unchanged |
| `Interpreter.Machine.constructor` | interpreter.py:16-20 | a new machine has a fresh empty data stack and a fresh empty return-address stack, which are distinct objects; its instruction pointer is 0 and `code` is stored as given |
| `Interpreter.PushDataKeepsRest` | interpreter.py:17-18 | because the two stacks are separate objects, a push onto the data stack leaves the return-address stack, the instruction pointer and the code unchanged |
| `Interpreter.FreshMachinePush` | interpreter.py:10-20 | on a newly built machine, one push onto the data stack leaves that value as the only data-stack element and as `top()`; the return-address stack stays empty and the instruction pointer stays 0 |

## Left out

- The Python file ends at the constructor. It has no execution loop, no opcode dispatch, no arithmetic or comparison operators, no jumps and no constant folder, so none of these is modelled.
- The `print_function` import and every form of I/O are host-process effects and are not modelled.
- The `deque` methods that `Stack` never uses (`appendleft`, `popleft`, `rotate`, `maxlen` and others) are library behaviour and are not modelled.
- `return_addr_stack` is only created in the source, so the model does nothing with it beyond its initial state.
- `Interpreter.Machine.constructor`: `code` is stored as an immutable sequence. If the caller later mutates the list it passed in, the Python machine sees the change, because it shares the list; the model does not capture this.
- Python is dynamically typed, so both stacks and `code` may hold any objects. The model gives them one element type parameter `T`.
