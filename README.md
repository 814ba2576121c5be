# User searcher of the console's command palette

This project models the command palette's user searcher
(`src/lib/commandCenter/searchers/users.ts`) and proves properties about it.
The searcher takes the users that a directory lookup found, along with the id
of the current project. It turns them into palette commands. Each command has
a label, a navigation action, a group and an optional icon.

- If exactly one user was found, the result is that user's "open" command
  followed by three shortcuts: "Go to activity", "Go to sessions" and
  "Go to memberships".
- For any other number of users, the result is one "open" command per user,
  in input order.

Modelling choices:

- The searcher is a pure function, `UserSearcher.Commands(users, projectId)`.
- The SDK's answer (`users`) and the current project's id are parameters.
- Each command's callback is represented by the path it would pass to the
  router. The paths are `/console/project-{projectId}/auth/user-{userId}`,
  optionally followed by `/activity`, `/sessions` or `/memberships`.
- A command's `label` field is called `title` in the Dafny model, because
  `label` is a reserved word in Dafny.
- `icon` is an `Option<string>`.
- Files: `user_searcher.dfy` holds the model and its lemmas. `wrappers.dfy`
  holds `Option`.

## Model

| member | source | states |
|---|---|---|
| `UserSearcher.UserPath` | src/lib/commandCenter/searchers/users.ts:12 | A user's page path starts with `/console/project-{projectId}/auth/user-`, and the user id can be read back from the rest of the path. |
| `UserSearcher.UserCommand` | src/lib/commandCenter/searchers/users.ts:8-16 | The open command is labelled with the user's name, belongs to group `users`, has icon `user-circle`, and leads to a path under the project's user prefix. The rest of that path is the user's id. |
| `UserSearcher.OpenCommands` | src/lib/commandCenter/searchers/users.ts:48 | Mapping over the users gives exactly one command per user, and command i is the open command of user i, so input order is kept. |
| `UserSearcher.Commands` | src/lib/commandCenter/searchers/users.ts:22-48 | One user gives 4 commands; any other count n gives n commands. Every command is in group `users`, and every destination starts with `/console/project-{projectId}/auth/user-`. |
| `UserSearcher.SingleUserOpensFirst` | src/lib/commandCenter/searchers/users.ts:8-24 | With one user, the first of the 4 commands is that user's open command: its label is the name, its path is `/console/project-{projectId}/auth/user-{id}`, its group is `users` and its icon is `user-circle`. |
| `UserSearcher.SingleUserShortcuts` | src/lib/commandCenter/searchers/users.ts:25-45 | With one user, commands 2-4 are labelled `Go to activity`, `Go to sessions` and `Go to memberships`, in that order. Their paths are the base user path followed by `/activity`, `/sessions` and `/memberships`. They are in group `users` and have no icon. The base path is a proper prefix of each shortcut's path. |
| `UserSearcher.SingleUserDestinationsDistinct` | src/lib/commandCenter/searchers/users.ts:22-46 | With one user, the four commands lead to four different paths. |
| `UserSearcher.OtherCountsOpenEach` | src/lib/commandCenter/searchers/users.ts:48 | For any count other than one, command i is exactly the open command of user i. Every command carries the `user-circle` icon, so no shortcut appears. Zero users give an empty list. |
| `UserSearcher.EveryUserOpened` | src/lib/commandCenter/searchers/users.ts:22-48 | Whatever the count, every user found has its open command in the result. |
| `UserSearcher.EveryCommandForFoundUser` | src/lib/commandCenter/searchers/users.ts:22-48 | Every command leads to the page of a user that was found, or to that page's activity, sessions or memberships sub-page. |
| `UserSearcher.DistinctIdsDistinctDestinations` | src/lib/commandCenter/searchers/users.ts:48 | For any count other than one, users with pairwise different ids get commands with pairwise different destinations. |
| `UserSearcher.TwoUsersExample` | src/lib/commandCenter/searchers/users.ts:8-48 | Users `1`/`ann-1` and `2`/`ann-b` in project `proj1` give two open commands, labelled `ann-1` and `ann-b`, leading to `/console/project-proj1/auth/user-1` and `/console/project-proj1/auth/user-2`. |

## Left out

- The directory lookup `sdk.forProject.users.list([], query)` (users.ts:19) is a network call into an SDK that is not part of this model. Its list of users is the input of `Commands`. The query, the asynchronous wait and lookup failures are not modelled; such failures propagate to the caller unchanged.
- The read of the current project from the shared store (users.ts:20) is replaced by the `projectId` parameter.
- The `goto` navigation inside each callback is a router side effect. Each callback is represented by the path it would navigate to.
- The `Command` and `Searcher` types from `../commands` are not part of this model. A local `Command` datatype stands in for them.
- `src/lib/stores/user.ts` is a bare framework store declaration with no logic of its own.
- User-record fields other than the id and the name, such as preferences, are never read by the searcher.
- The searcher never mutates the user records it receives. Dafny datatype values are immutable, so the model has nothing to state about this.
