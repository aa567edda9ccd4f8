/**
 * The record types shared by every component (src/lib/blink.ts).
 * Optional TypeScript properties (`displayName?`, `avatar?`, `userId?`) are `Option`s.
 */
module Blink {
  import opened Wrappers

  /** The three plan tiers of `User.plan`. */
  datatype Plan = Free | Premium | Pro

  /** A signed-in identity with its quota figures; `maxMessages == -1` means unlimited. */
  datatype User = User(
    id: string,
    email: string,
    displayName: Option<string>,
    avatar: Option<string>,
    plan: Plan,
    badges: seq<string>,
    messageCount: int,
    maxMessages: int)

  /** `Message.role`. */
  datatype Role = UserRole | AssistantRole

  /** One transcript entry. */
  datatype Message = Message(
    id: string,
    content: string,
    role: Role,
    timestamp: int,
    userId: Option<string>)

  /** One conversation as listed in the sidebar. */
  datatype Chat = Chat(
    id: string,
    title: string,
    messages: seq<Message>,
    userId: Option<string>,
    createdAt: int,
    updatedAt: int)
}
